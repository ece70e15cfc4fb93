/**
 * The configuration tokenizer of the validation tool. A histogram
 * configuration is one string holding a title, a bin count and the low and
 * high bin limits separated by commas; `GetBitBeforeComma` takes the first
 * field off the front and leaves the rest in its by-reference argument.
 */
module ConfigTokenizer {
  import opened StdString

  /** The number of commas in `s`. */
  function CommaCount(s: string): (n: nat)
    ensures n <= |s|
  {
    if s == [] then 0 else (if s[0] == ',' then 1 else 0) + CommaCount(s[1..])
  }

  lemma {:induction false} CommaCountAppend(a: string, b: string)
    ensures CommaCount(a + b) == CommaCount(a) + CommaCount(b)
  {
    if a != [] {
      assert (a + b)[1..] == a[1..] + b;
      CommaCountAppend(a[1..], b);
    } else {
      assert a + b == b;
    }
  }

  lemma {:induction false} CommaFreeCount(s: string)
    requires ',' !in s
    ensures CommaCount(s) == 0
  {
    if s != [] {
      assert s[0] != ',';
      CommaFreeCount(s[1..]);
    }
  }

  /**
   * What the by-reference argument holds after one tokenizer step: nothing
   * when there is no comma or the comma is the very first character,
   * otherwise everything after the first comma, untrimmed.
   */
  function Rest(input: string): (rest: string)
    ensures ',' !in input || input[0] == ',' ==> rest == []
    ensures input != [] ==> |rest| < |input|
  {
    var pos := FirstIndexOf(input, ',');
    if pos <= 0 then [] else input[pos + 1..]
  }

  /**
   * When the first comma is not the first character, the input is the
   * comma-free, non-empty text before it, the comma, and `Rest(input)`.
   */
  lemma RestFollowsFirstComma(input: string)
    requires ',' in input && input[0] != ','
    ensures var head := input[..|input| - |Rest(input)| - 1];
      && input == head + [','] + Rest(input)
      && head != [] && ',' !in head
  {
    var pos := FirstIndexOf(input, ',');
    assert input == input[..pos] + [','] + input[pos + 1..];
  }

  /**
   * The field one tokenizer step returns: the whole input trimmed when
   * there is no comma or the comma is the very first character, otherwise
   * the trimmed text before the first comma.
   */
  function Field(input: string): (field: string)
    ensures ',' !in input || input[0] == ',' ==> field == Trim(input)
    ensures ',' in input && input[0] != ',' ==> field == Trim(input[..|input| - |Rest(input)| - 1])
  {
    var pos := FirstIndexOf(input, ',');
    if pos <= 0 then Trim(input)
    else
      assert |input| - |Rest(input)| - 1 == pos;
      Trim(input[..pos])
  }

  /**
   * `GetBitBeforeComma(string& input)`: `output` is the returned field and
   * `remaining` the value the by-reference `input` is left holding.
   */
  method GetBitBeforeComma(input: string) returns (output: string, remaining: string)
    ensures output == Field(input) && remaining == Rest(input)
    ensures input != [] ==> |remaining| < |input|
  {
    remaining := input;
    var pos := FirstIndexOf(remaining, ',');
    if pos <= 0 {
      remaining := Trim(remaining);
      output := remaining;
      remaining := "";
    } else {
      output := remaining[..pos];
      output := Trim(output);
      remaining := remaining[pos + 1..];
    }
  }

  /** A step either empties the input or consumes exactly one comma. */
  lemma SplitConsumesOneComma(input: string)
    ensures Rest(input) == [] || CommaCount(Rest(input)) == CommaCount(input) - 1
  {
    var rest := Rest(input);
    if ',' in input && input[0] != ',' {
      RestFollowsFirstComma(input);
      var head := input[..|input| - |rest| - 1];
      CommaFreeCount(head);
      CommaCountAppend(head + [','], rest);
      CommaCountAppend(head, [',']);
    }
  }

  /** The input left after `k` successive calls of the tokenizer. */
  function Remaining(config: string, k: nat): string
    decreases k
  {
    if k == 0 then config else Remaining(Rest(config), k - 1)
  }

  lemma {:induction false} EmptyStaysEmpty(k: nat)
    ensures Remaining([], k) == []
  {
    if k > 0 {
      EmptyStaysEmpty(k - 1);
    }
  }

  /**
   * A configuration with `n` commas is used up after `n + 1` calls at the
   * latest: the four successive calls for title, bin count, low and high
   * limit consume any configuration with at most three commas.
   */
  lemma {:induction false} ConfigConsumed(config: string, k: nat)
    requires k > CommaCount(config)
    ensures Remaining(config, k) == []
    decreases k
  {
    if Rest(config) == [] {
      EmptyStaysEmpty(k - 1);
    } else {
      SplitConsumesOneComma(config);
      ConfigConsumed(Rest(config), k - 1);
    }
  }

  /**
   * The field returned holds a comma exactly when the input starts with one:
   * a leading comma sends the tokenizer into its "take everything" branch,
   * so the field is the whole trimmed configuration and nothing is left.
   */
  lemma LeadingCommaSwallowsConfig(input: string)
    ensures ',' in Field(input) <==> input != [] && input[0] == ','
    ensures input != [] && input[0] == ',' ==> Field(input)[0] == ',' && Rest(input) == []
  {
    if input != [] && input[0] == ',' {
      TrimKeepsFirst(input);
    } else if ',' !in input {
      if ',' in Field(input) {
        TrimKeepsChars(input, ',');
      }
    } else {
      RestFollowsFirstComma(input);
      var head := input[..|input| - |Rest(input)| - 1];
      if ',' in Field(input) {
        TrimKeepsChars(head, ',');
      }
    }
  }
}
