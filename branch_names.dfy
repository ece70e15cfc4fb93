/**
 * Turning a branch name of the simulation-output tree into a readable
 * label: the prefix up to the first underscore is dropped, the remaining
 * underscores become spaces and the first letter is upper-cased
 * (`caloHit_energy_deposit` reads `Energy deposit`).
 */
module BranchNames {
  import opened StdString

  /** The name with every underscore replaced by a space. */
  function Spaced(s: string): (r: string)
    ensures |r| == |s|
    ensures forall k :: 0 <= k < |s| ==> r[k] == if s[k] == '_' then ' ' else s[k]
  {
    if s == [] then [] else [if s[0] == '_' then ' ' else s[0]] + Spaced(s[1..])
  }

  /**
   * `output[0] = toupper(output[0])`; on an empty string the write goes to
   * the terminating '\0', which toupper leaves as it is.
   */
  function Capitalized(s: string): (r: string)
    ensures |r| == |s|
    ensures s != [] ==> r[0] == ToUpper(s[0]) && r[1..] == s[1..]
  {
    if s == [] then [] else s[0 := ToUpper(s[0])]
  }

  /** The label `BranchNameToEnglish` produces for `name`. */
  function English(name: string): (r: string)
  {
    Capitalized(Spaced(name)[FirstIndexOf(name, '_') + 1..])
  }

  /**
   * The source's loop: note the first underscore, replace underscores by
   * spaces one at a time until none is left, then keep what follows the
   * first one and upper-case its first character.
   */
  method BranchNameToEnglish(branchName: string) returns (output: string)
    ensures output == English(branchName)
    ensures '_' !in output
  {
    var name := branchName;
    var pos := FirstIndexOf(name, '_');
    var initPos := pos;
    while pos >= 0
      invariant |name| == |branchName|
      invariant forall k :: 0 <= k < |name| ==>
        name[k] == branchName[k] || (branchName[k] == '_' && name[k] == ' ')
      invariant pos == FirstIndexOf(name, '_')
      decreases multiset(name)['_']
    {
      ReplaceDropsUnderscore(name, pos);
      name := name[pos := ' '];
      pos := FirstIndexOf(name, '_');
    }
    AllReplaced(branchName, name);
    output := name[initPos + 1..];
    if |output| > 0 {
      output := output[0 := ToUpper(output[0])];
    }
    EnglishHasNoUnderscore(branchName);
  }


  /** Overwriting one underscore leaves one underscore fewer. */
  lemma ReplaceDropsUnderscore(s: string, i: int)
    requires 0 <= i < |s| && s[i] == '_'
    ensures multiset(s[i := ' '])['_'] == multiset(s)['_'] - 1
  {
  }

  /**
   * A copy in which some underscores became spaces and no underscore is
   * left is the fully spaced name.
   */
  lemma AllReplaced(s: string, t: string)
    requires |t| == |s| && '_' !in t
    requires forall k :: 0 <= k < |t| ==> t[k] == s[k] || (s[k] == '_' && t[k] == ' ')
    ensures t == Spaced(s)
  {
    var r := Spaced(s);
    forall k | 0 <= k < |t|
      ensures t[k] == r[k]
    {
      assert t[k] != '_';
    }
  }

  lemma SpacedHasNoUnderscore(s: string)
    ensures '_' !in Spaced(s)
  {
    var r := Spaced(s);
    forall k | 0 <= k < |r|
      ensures r[k] != '_'
    {
    }
  }

  /** Upper-casing the first letter introduces no underscore. */
  lemma CapitalizedAddsNoUnderscore(s: string)
    requires '_' !in s
    ensures '_' !in Capitalized(s)
  {
    if s != [] {
      var r := Capitalized(s);
      assert r[0] != '_' by {
        if IsLower(s[0]) {
          assert ToUpper(s[0]) as int <= 'Z' as int < '_' as int;
        }
      }
      assert forall k | 1 <= k < |r| :: r[k] == s[k];
    }
  }

  /** The label never holds an underscore. */
  lemma EnglishHasNoUnderscore(name: string)
    ensures '_' !in English(name)
  {
    var spaced := Spaced(name);
    var tail := spaced[FirstIndexOf(name, '_') + 1..];
    SpacedHasNoUnderscore(name);
    assert forall c | c in tail :: c in spaced;
    CapitalizedAddsNoUnderscore(tail);
  }

  lemma FirstUnderscoreAfterPrefix(prefix: string, rest: string)
    requires '_' !in prefix
    ensures FirstIndexOf(prefix + "_" + rest, '_') == |prefix|
  {
    var name := prefix + "_" + rest;
    assert name[|prefix|] == '_';
    assert name[..|prefix|] == prefix;
  }

  /**
   * For a name `prefix_rest` whose prefix holds no underscore, the label is
   * `rest` with its underscores turned into spaces and its first letter
   * upper-cased.
   */
  lemma EnglishDropsPrefix(prefix: string, rest: string)
    requires '_' !in prefix
    ensures English(prefix + "_" + rest) == Capitalized(Spaced(rest))
  {
    var name := prefix + "_" + rest;
    FirstUnderscoreAfterPrefix(prefix, rest);
    assert Spaced(name)[|prefix| + 1..] == Spaced(rest);
  }

  /** A name without underscores keeps all its text: only its first letter changes. */
  lemma EnglishOfPlainName(name: string)
    requires '_' !in name
    ensures English(name) == Capitalized(name)
  {
    assert Spaced(name) == name;
  }

  lemma CapitalizedIdempotent(s: string)
    ensures Capitalized(Capitalized(s)) == Capitalized(s)
  {
  }

  /** A label is its own label: the conversion is idempotent. */
  lemma EnglishIdempotent(name: string)
    ensures English(English(name)) == English(name)
  {
    EnglishHasNoUnderscore(name);
    EnglishOfPlainName(English(name));
    CapitalizedIdempotent(Spaced(name)[FirstIndexOf(name, '_') + 1..]);
  }
}
