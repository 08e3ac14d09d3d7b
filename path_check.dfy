/** The check both cluster/surface scripts make before anything else: the
    directory holding the script may contain only ASCII letters, digits and
    `/_-`; otherwise the script stops, listing the offending characters. */
module PathCheck {
  import opened Wrappers
  import opened PyStr

  /** `character not in string.ascii_letters + string.digits + "/_-"` */
  predicate IsSpecial(c: char) {
    !(IsAlnum(c) || c == '/' || c == '_' || c == '-')
  }

  /** `[character for character in path if is_special(character)]` */
  function Specials(path: string): (r: string)
    ensures forall k :: 0 <= k < |r| ==> IsSpecial(r[k])
    ensures forall c :: c in r <==> c in path && IsSpecial(c)
    decreases |path|
  {
    if |path| == 0 then ""
    else if IsSpecial(path[|path| - 1]) then Specials(path[..|path| - 1]) + [path[|path| - 1]]
    else Specials(path[..|path| - 1])
  }

  /** The characters of `s`, each kept at its first appearance only. */
  function Distinct(s: string): (r: string)
    decreases |s|
  {
    if |s| == 0 then ""
    else if s[|s| - 1] in Distinct(s[..|s| - 1]) then Distinct(s[..|s| - 1])
    else Distinct(s[..|s| - 1]) + [s[|s| - 1]]
  }

  /** How one character is shown in the message. */
  function Shown(c: char): string {
    if c == ' ' then "' ' (space)" else "'" + [c] + "'"
  }

  function ShownAll(cs: string): (r: seq<string>)
    ensures |r| == |cs|
    ensures forall k :: 0 <= k < |cs| ==> r[k] == Shown(cs[k])
  {
    seq(|cs|, k requires 0 <= k < |cs| => Shown(cs[k]))
  }

  /** The `Invalid characters:` list of the message. */
  function InvalidList(path: string): string {
    Join(ShownAll(Distinct(Specials(path))), ", ")
  }

  /** The outcome of the check: the script goes on, or it exits with this
      message. */
  function PathVerdict(path: string): (r: Result<()>)
    ensures r.Ok? <==> forall k :: 0 <= k < |path| ==> !IsSpecial(path[k])
  {
    if Specials(path) == "" then Ok(())
    else
      assert Specials(path)[0] in Specials(path);
      Err("XXXXX\nPlease remove any spaces and special characters from your directory path.\nCurrent path: " +
          path + "\nInvalid characters: " + InvalidList(path) + "\nXXXXX")
  }

  /** The first index of `c` in `s`. */
  function IndexOf(s: string, c: char): (i: nat)
    requires c in s
    ensures i < |s| && s[i] == c && c !in s[..i]
    decreases |s|
  {
    if s[0] == c then 0 else IndexOf(s[1..], c) + 1
  }

  /** The loop that builds `unique_characters` and `character_string`, with
      the final `[:-2]` that drops the trailing separator. */
  method InvalidCharacters(path: string) returns (characterString: string)
    ensures characterString == InvalidList(path)
  {
    var specialCharacters := Specials(path);
    var uniqueCharacters := "";
    characterString := "";
    var i := 0;
    while i < |specialCharacters|
      invariant 0 <= i <= |specialCharacters|
      invariant uniqueCharacters == Distinct(specialCharacters[..i])
      invariant characterString == Terminated(ShownAll(uniqueCharacters), ", ")
    {
      var character := specialCharacters[i];
      DistinctSnoc(specialCharacters, i);
      if character !in uniqueCharacters {
        ShownSnoc(uniqueCharacters, character);
        uniqueCharacters := uniqueCharacters + [character];
        characterString := AppendShown(characterString, character);
      }
      i := i + 1;
    }
    assert specialCharacters[..i] == specialCharacters;
    DropSeparator(ShownAll(uniqueCharacters));
    characterString := DropLast(characterString, 2);
  }

  lemma DistinctSnoc(s: string, i: nat)
    requires i < |s|
    ensures Distinct(s[..i + 1]) == if s[i] in Distinct(s[..i]) then Distinct(s[..i]) else Distinct(s[..i]) + [s[i]]
  {
    assert s[..i + 1][..i] == s[..i];
  }

  lemma ShownSnoc(unique: string, c: char)
    ensures Terminated(ShownAll(unique + [c]), ", ") == Terminated(ShownAll(unique), ", ") + Shown(c) + ", "
  {
    TerminatedSnoc(ShownAll(unique), Shown(c), ", ");
    assert ShownAll(unique + [c]) == ShownAll(unique) + [Shown(c)];
  }

  /** The `if character == ' '` step that adds one character to the list. */
  method AppendShown(characterString: string, character: char) returns (r: string)
    ensures r == characterString + Shown(character) + ", "
  {
    if character == ' ' {
      r := characterString + "' ' (space), ";
    } else {
      r := characterString + "'" + [character] + "', ";
    }
  }

  /** `[:-2]` on the terminated list gives the joined list, also when the
      list is empty. */
  lemma DropSeparator(items: seq<string>)
    ensures DropLast(Terminated(items, ", "), 2) == Join(items, ", ")
  {
    if |items| > 0 {
      TerminatedJoin(items, ", ");
      var t := Terminated(items, ", ");
      assert t[..|t| - 2] == Join(items, ", ");
    }
  }

  /** The list names each special character of the path, and only those. */
  lemma {:induction false} DistinctElements(s: string)
    ensures forall c :: c in Distinct(s) <==> c in s
    decreases |s|
  {
    if |s| > 0 {
      DistinctElements(s[..|s| - 1]);
      assert s == s[..|s| - 1] + [s[|s| - 1]];
    }
  }

  /** No character is listed twice. */
  lemma {:induction false} DistinctNoRepeats(s: string)
    ensures forall i, j :: 0 <= i < j < |Distinct(s)| ==> Distinct(s)[i] != Distinct(s)[j]
    decreases |s|
  {
    if |s| > 0 {
      DistinctNoRepeats(s[..|s| - 1]);
    }
  }

  /** Characters are listed in the order of their first appearance. */
  lemma {:induction false} DistinctFirstSeen(s: string)
    ensures forall i, j :: 0 <= i < j < |Distinct(s)| ==>
      Distinct(s)[i] in s && Distinct(s)[j] in s &&
      IndexOf(s, Distinct(s)[i]) < IndexOf(s, Distinct(s)[j])
    decreases |s|
  {
    DistinctElements(s);
    if |s| > 0 {
      var front := s[..|s| - 1];
      DistinctFirstSeen(front);
      DistinctElements(front);
      assert s == front + [s[|s| - 1]];
      forall c | c in front
        ensures IndexOf(s, c) == IndexOf(front, c)
      {
        IndexOfPrefix(front, [s[|s| - 1]], c);
      }
      if s[|s| - 1] !in Distinct(front) {
        var x := s[|s| - 1];
        assert x !in front;
        forall c | c in front
          ensures IndexOf(s, c) < IndexOf(s, x)
        {
          assert IndexOf(s, x) == |front|;
        }
      }
    }
  }

  lemma {:induction false} IndexOfPrefix(a: string, b: string, c: char)
    requires c in a
    ensures IndexOf(a + b, c) == IndexOf(a, c)
    decreases |a|
  {
    if a[0] != c {
      assert (a + b)[1..] == a[1..] + b;
      IndexOfPrefix(a[1..], b, c);
    }
  }
}
