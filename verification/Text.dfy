/** Byte strings with ASCII white space, as the gateway trims them.
    A `char` stands for one byte. */
module Text {

  predicate IsSpace(c: char) {
    c == ' ' || c == '\t' || c == '\n' || c == '\r' || c == 11 as char || c == 12 as char
  }

  /** The white space of ASCII: tab, newline, vertical tab, form feed, carriage return and space. */
  lemma {:induction false} SpacesAre(c: char)
    ensures IsSpace(c) <==> 9 <= c as int <= 13 || c as int == 32
  {
  }

  predicate Blank(s: string) {
    forall i :: 0 <= i < |s| ==> IsSpace(s[i])
  }

  /** A string that trimming leaves alone. */
  predicate Trimmed(s: string) {
    s == [] || (!IsSpace(s[0]) && !IsSpace(s[|s| - 1]))
  }

  predicate StandsAt(s: string, i: nat, sub: string) {
    i + |sub| <= |s| && s[i..i + |sub|] == sub
  }

  predicate Contains(s: string, sub: string) {
    exists i :: 0 <= i <= |s| && StandsAt(s, i, sub)
  }

  function TrimLeft(s: string): (r: string)
    ensures r == [] || !IsSpace(r[0])
    ensures |r| <= |s| && r == s[|s| - |r|..] && Blank(s[..|s| - |r|])
  {
    if s != [] && IsSpace(s[0]) then TrimLeft(s[1..]) else s
  }

  function TrimRight(s: string): (r: string)
    ensures r == [] || !IsSpace(r[|r| - 1])
    ensures r <= s && Blank(s[|r|..])
  {
    if s != [] && IsSpace(s[|s| - 1]) then
      var r := TrimRight(s[..|s| - 1]);
      assert s[|r|..] == s[..|s| - 1][|r|..] + [s[|s| - 1]];
      r
    else s
  }

  function Trim(s: string): (r: string)
    ensures Trimmed(r) && |r| <= |s|
  {
    TrimRight(TrimLeft(s))
  }

  /** Trimming strips blanks on both sides and nothing else. */
  lemma {:induction false} TrimSplit(s: string) returns (left: string, right: string)
    ensures s == left + Trim(s) + right && Blank(left) && Blank(right)
  {
    hide Blank, TrimLeft, TrimRight;
    var l := TrimLeft(s);
    left := LeftStripped(s);
    right := RightStripped(l);
    Associative(left, TrimRight(l), right);
  }

  lemma {:induction false} LeftStripped(s: string) returns (left: string)
    ensures s == left + TrimLeft(s) && Blank(left)
  {
    var n := |s| - |TrimLeft(s)|;
    left := s[..n];
    SplitAt(s, n);
  }

  lemma {:induction false} RightStripped(s: string) returns (right: string)
    ensures s == TrimRight(s) + right && Blank(right)
  {
    var n := |TrimRight(s)|;
    right := s[n..];
    SplitAt(s, n);
  }

  lemma {:induction false} StandsIn(s: string, i: nat, k: nat, j: nat)
    requires i <= k < j <= |s|
    ensures s[k] in s[i..j]
  {
    assert s[i..j][k - i] == s[k];
  }

  lemma {:induction false} SplitAt(s: string, k: nat)
    requires k <= |s|
    ensures s == s[..k] + s[k..]
  {
  }

  lemma {:induction false} Associative(a: string, b: string, c: string)
    ensures a + (b + c) == a + b + c
  {
  }

  lemma {:induction false} BlankConcat(a: string, b: string)
    ensures Blank(a + b) <==> Blank(a) && Blank(b)
  {
    if Blank(a + b) {
      assert forall i :: 0 <= i < |a| ==> a[i] == (a + b)[i];
      assert forall i :: 0 <= i < |b| ==> b[i] == (a + b)[|a| + i];
    }
  }

  lemma {:induction false} TrimLeftPad(left: string, s: string)
    requires Blank(left) && (s == [] || !IsSpace(s[0]))
    ensures TrimLeft(left + s) == s
  {
    if left == [] {
      assert left + s == s;
    } else {
      assert (left + s)[1..] == left[1..] + s;
      TrimLeftPad(left[1..], s);
    }
  }

  lemma {:induction false} TrimRightPad(s: string, right: string)
    requires Blank(right) && (s == [] || !IsSpace(s[|s| - 1]))
    ensures TrimRight(s + right) == s
  {
    if right == [] {
      assert s + right == s;
    } else {
      var n := |right| - 1;
      assert (s + right)[..|s + right| - 1] == s + right[..n];
      TrimRightPad(s, right[..n]);
    }
  }

  lemma {:induction false} TrimLeftBlank(s: string)
    requires Blank(s)
    ensures TrimLeft(s) == []
  {
    if s != [] { TrimLeftBlank(s[1..]); }
  }

  /** Padding with blanks on both sides is exactly what trimming undoes. */
  lemma {:induction false} TrimPad(left: string, s: string, right: string)
    requires Blank(left) && Blank(right) && Trimmed(s)
    ensures Trim(left + s + right) == s
  {
    if s == [] {
      BlankConcat(left, right);
      assert left + s + right == left + right;
      TrimLeftBlank(left + right);
    } else {
      assert left + s + right == left + (s + right);
      TrimLeftPad(left, s + right);
      TrimRightPad(s, right);
    }
  }

  lemma {:induction false} TrimIdentity(s: string)
    requires Trimmed(s)
    ensures Trim(s) == s
  {
    TrimPad([], s, []);
    assert [] + s + [] == s;
  }

  /** A text is blank exactly when trimming leaves nothing of it. */
  lemma {:induction false} TrimEmpty(s: string)
    ensures Trim(s) == [] <==> Blank(s)
  {
    var l, r := TrimSplit(s);
    if Trim(s) == [] {
      BlankConcat(l, r);
      assert s == l + r;
    } else {
      assert s[|l|] == Trim(s)[0];
    }
  }
}
