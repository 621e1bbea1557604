/** The string operations the modelled code relies on, for ASCII text. */
module Text {
  import opened Wrappers

  // What stripping removes: the space, tab to carriage return, and the four separators.
  predicate IsSpace(c: char) {
    c == ' ' || 9 <= c as int <= 13 || 28 <= c as int <= 31
  }

  function NonEmpty(s: string): Option<string> {
    if s == "" then None else Some(s)
  }

  function StripLeft(s: string): (r: string)
    ensures r != "" ==> !IsSpace(r[0])
  {
    if s != "" && IsSpace(s[0]) then StripLeft(s[1..]) else s
  }

  function StripRight(s: string): (r: string)
    ensures r != "" ==> !IsSpace(r[|r| - 1])
    ensures r <= s
  {
    if s != "" && IsSpace(s[|s| - 1]) then StripRight(s[..|s| - 1]) else s
  }

  function Strip(s: string): string {
    StripRight(StripLeft(s))
  }

  lemma StripTwice(s: string)
    ensures Strip(Strip(s)) == Strip(s)
  {
    var l := StripLeft(s);
    var r := StripRight(l);
    assert r != "" ==> r[0] == l[0];
  }

  // A line without space in it survives its own line end.
  lemma StripLine(s: string)
    requires s != "" && forall c <- s :: !IsSpace(c)
    ensures Strip(s + "\n") == s
  {
    var line := s + "\n";
    assert line[0] in s && s[|s| - 1] in s;
    assert line[|line| - 1] == '\n' && line[..|line| - 1] == s;
    assert StripRight(s) == s;
  }

  function Lower(s: string): string {
    seq(|s|, i requires 0 <= i < |s| => if 'A' <= s[i] <= 'Z' then s[i] - 'A' + 'a' else s[i])
  }

  lemma SpacesAre(c: char)
    ensures IsSpace(c) <==> c == ' ' || c == '\t' || c == '\n' || c == '\r' || c as int == 11 || c as int == 12
                            || c as int == 28 || c as int == 29 || c as int == 30 || c as int == 31
  {
  }

  lemma {:induction false} StripLeftIs(left: string, s: string)
    requires (forall c <- left :: IsSpace(c)) && (s != "" ==> !IsSpace(s[0]))
    ensures StripLeft(left + s) == s
  {
    if left != "" {
      StripLeftIs(left[1..], s);
      assert left[0] in left && (left + s)[1..] == left[1..] + s;
    } else {
      assert left + s == s;
    }
  }

  lemma {:induction false} StripRightIs(s: string, right: string)
    requires (forall c <- right :: IsSpace(c)) && (s != "" ==> !IsSpace(s[|s| - 1]))
    ensures StripRight(s + right) == s
  {
    if right != "" {
      var n := |right| - 1;
      StripRightIs(s, right[..n]);
      assert right[n] in right && (s + right)[..|s| + n] == s + right[..n];
    } else {
      assert s + right == s;
    }
  }

  // Stripping removes the space around a text that neither begins nor ends with space.
  lemma StripIs(left: string, s: string, right: string)
    requires (forall c <- left :: IsSpace(c)) && (forall c <- right :: IsSpace(c))
    requires s != "" ==> !IsSpace(s[0]) && !IsSpace(s[|s| - 1])
    ensures Strip(left + s + right) == s
  {
    if s != "" {
      assert left + s + right == left + (s + right);
      StripLeftIs(left, s + right);
      StripRightIs(s, right);
    } else {
      assert left + s + right == (left + right) + "";
      assert forall c <- left + right :: c in left || c in right;
      StripLeftIs(left + right, "");
    }
  }

  // Lower case changes the letters from A to Z and nothing else.
  lemma LowerIs(s: string, i: nat)
    requires i < |s|
    ensures |Lower(s)| == |s|
    ensures Lower(s)[i] == if 65 <= s[i] as int <= 90 then (s[i] as int + 32) as char else s[i]
  {
  }
}
