/** The string operations the browser flow code calls: trimming, splitting and searching. */
module Text {
  import opened Results

  /** The Unicode White_Space property, which is what Rust's `trim` removes. */
  predicate IsSpace(c: char) {
    var n := c as int;
    || 0x09 <= n <= 0x0D || n == 0x20 || n == 0x85 || n == 0xA0 || n == 0x1680
    || 0x2000 <= n <= 0x200A || n == 0x2028 || n == 0x2029 || n == 0x202F || n == 0x205F || n == 0x3000
  }

  function TrimStart(s: string): string {
    if s != [] && IsSpace(s[0]) then TrimStart(s[1..]) else s
  }

  function TrimEnd(s: string): string {
    if s != [] && IsSpace(s[|s| - 1]) then TrimEnd(s[..|s| - 1]) else s
  }

  function Trim(s: string): string {
    TrimEnd(TrimStart(s))
  }

  predicate AllSpace(s: string) {
    forall i :: 0 <= i < |s| ==> IsSpace(s[i])
  }

  lemma {:induction false} TrimStartCuts(s: string) returns (front: string)
    ensures s == front + TrimStart(s) && AllSpace(front)
    ensures TrimStart(s) != "" ==> !IsSpace(TrimStart(s)[0])
  {
    front := "";
    if s != [] && IsSpace(s[0]) {
      var rest := TrimStartCuts(s[1..]);
      front := [s[0]] + rest;
    }
  }

  lemma {:induction false} TrimEndCuts(s: string) returns (back: string)
    ensures s == TrimEnd(s) + back && AllSpace(back)
    ensures TrimEnd(s) != "" ==> !IsSpace(TrimEnd(s)[|TrimEnd(s)| - 1])
  {
    back := "";
    if s != [] && IsSpace(s[|s| - 1]) {
      var rest := TrimEndCuts(s[..|s| - 1]);
      back := rest + [s[|s| - 1]];
    }
  }

  /** Trimming cuts off white space at both ends, and all of it. */
  lemma TrimCutsSpace(s: string) returns (front: string, back: string)
    ensures s == front + Trim(s) + back && AllSpace(front) && AllSpace(back)
    ensures Trim(s) != "" ==> !IsSpace(Trim(s)[0]) && !IsSpace(Trim(s)[|Trim(s)| - 1])
  {
    hide TrimStart, TrimEnd;
    front := TrimStartCuts(s);
    back := TrimEndCuts(TrimStart(s));
  }

  predicate Blank(s: string) {
    Trim(s) == ""
  }

  /** A text is blank exactly when it is all white space. */
  lemma BlankIsAllSpace(s: string)
    ensures Blank(s) <==> AllSpace(s)
  {
    hide Trim, IsSpace;
    var front, back := TrimCutsSpace(s);
    if Trim(s) != "" {
      assert s[|front|] == Trim(s)[0];
    }
  }

  predicate AllPresent(ss: seq<string>) {
    forall s :: s in ss ==> !Blank(s)
  }

  predicate PresentIfAny(s: Option<string>) {
    s.Some? ==> !Blank(s.value)
  }

  /** `s.split_once(c)`: the text before and after the first `c`. */
  function SplitOnce(s: string, c: char): (r: Option<(string, string)>)
    ensures r.None? <==> c !in s
    ensures r.Some? ==> c !in r.value.0 && s == r.value.0 + [c] + r.value.1
  {
    if s == [] then None
    else if s[0] == c then Some(("", s[1..]))
    else
      var rest := SplitOnce(s[1..], c);
      if rest.None? then None else Some(([s[0]] + rest.value.0, rest.value.1))
  }

  /** A text is split at the first `c` and nowhere else. */
  lemma SplitAtFirst(s: string, c: char, a: string, b: string)
    requires s == a + [c] + b && c !in a
    ensures SplitOnce(s, c) == Some((a, b)) && c in s
  {
    hide SplitOnce;
    assert s[|a|] == c;
    assert c in s;
    var parts := SplitOnce(s, c).value;
    assert s[|parts.0|] == c;
    assert forall i :: 0 <= i < |a| ==> s[i] == a[i] && s[i] != c;
    assert forall i :: 0 <= i < |parts.0| ==> s[i] == parts.0[i] && s[i] != c;
    assert |parts.0| == |a|;
    assert parts.0 == s[..|a|] == a && parts.1 == s[|a| + 1..] == b;
  }

  predicate PairAt(s: string, c: char, i: int) {
    0 <= i && i + 1 < |s| && s[i] == c && s[i + 1] == c
  }

  /** `s.find("cc")`: the first index at which `c` stands twice, or `|s|` when it never does. */
  function FirstPair(s: string, c: char): (i: nat)
    ensures i <= |s|
    ensures i < |s| ==> i + 2 <= |s|
  {
    PairFrom(s, c, 0)
  }

  function PairFrom(s: string, c: char, from: nat): (i: nat)
    requires from <= |s|
    ensures from <= i <= |s|
    ensures i < |s| ==> i + 2 <= |s|
    decreases |s| - from
  {
    if from == |s| || PairAt(s, c, from) then from else PairFrom(s, c, from + 1)
  }

  predicate HasPair(s: string, c: char) {
    FirstPair(s, c) < |s|
  }

  lemma {:induction false} PairFromIsFirst(s: string, c: char, from: nat)
    requires from <= |s|
    ensures var i := PairFrom(s, c, from);
            (i < |s| ==> PairAt(s, c, i)) && forall j :: from <= j < i ==> !PairAt(s, c, j)
    decreases |s| - from
  {
    if from != |s| && !PairAt(s, c, from) {
      PairFromIsFirst(s, c, from + 1);
    }
  }

  /** `FirstPair` is the first doubled character, and nothing else is. */
  lemma FirstPairIsFirst(s: string, c: char, i: nat)
    ensures FirstPair(s, c) == i <==>
            i <= |s| && (i < |s| ==> PairAt(s, c, i)) && forall j :: 0 <= j < i ==> !PairAt(s, c, j)
  {
    PairFromIsFirst(s, c, 0);
    var k := FirstPair(s, c);
    if i < k && i < |s| {
      assert !PairAt(s, c, i);
    } else if k < i && k < |s| {
      assert PairAt(s, c, k);
    }
  }

  /** A doubled character found just behind `a` stays the first one whatever follows it. */
  lemma FirstPairBehind(a: string, c: char, b: string)
    requires FirstPair(a + [c, c], c) == |a|
    ensures FirstPair(a + [c, c] + b, c) == |a|
  {
    var s := a + [c, c] + b;
    FirstPairIsFirst(a + [c, c], c, |a|);
    assert PairAt(s, c, |a|);
    forall j | 0 <= j < |a|
      ensures !PairAt(s, c, j)
    {
      assert !PairAt(a + [c, c], c, j);
    }
    FirstPairIsFirst(s, c, |a|);
  }

  /** The doubled character found in `s` is also found when `s` is cut off behind it. */
  lemma FirstPairWithin(s: string, c: char)
    requires HasPair(s, c)
    ensures var i := FirstPair(s, c);
            s[..i] + [c, c] == s[..i + 2] && FirstPair(s[..i] + [c, c], c) == i
  {
    var i := FirstPair(s, c);
    FirstPairIsFirst(s, c, i);
    var t := s[..i] + [c, c];
    assert t == s[..i + 2];
    assert PairAt(t, c, i);
    forall j | 0 <= j < i
      ensures !PairAt(t, c, j)
    {
      assert !PairAt(s, c, j);
    }
    FirstPairIsFirst(t, c, i);
  }

  lemma NoPairAnywhere(s: string, c: char)
    requires !HasPair(s, c)
    ensures forall j :: !PairAt(s, c, j)
  {
    FirstPairIsFirst(s, c, |s|);
  }

  lemma NowherePair(s: string, c: char)
    requires forall j :: 0 <= j < |s| ==> !PairAt(s, c, j)
    ensures !HasPair(s, c)
  {
    FirstPairIsFirst(s, c, |s|);
  }

  /** A text before its first doubled character holds none, and ends in a different character. */
  lemma BeforeFirstPair(a: string, c: char)
    requires FirstPair(a + [c, c], c) == |a|
    ensures !HasPair(a, c) && (a != "" ==> a[|a| - 1] != c)
  {
    var s := a + [c, c];
    FirstPairIsFirst(s, c, |a|);
    forall j | 0 <= j < |a|
      ensures !PairAt(a, c, j)
    {
      assert !PairAt(s, c, j);
    }
    NowherePair(a, c);
    if a != "" {
      assert !PairAt(s, c, |a| - 1);
    }
  }

  /** Joining two texts creates no doubled `c` unless the first one ends in `c`. */
  lemma JoinMakesNoPair(a: string, b: string, c: char)
    requires !HasPair(a, c) && !HasPair(b, c)
    requires a == "" || a[|a| - 1] != c
    ensures !HasPair(a + b, c)
  {
    NoPairAnywhere(a, c);
    NoPairAnywhere(b, c);
    forall j | 0 <= j < |a + b|
      ensures !PairAt(a + b, c, j)
    {
      if j + 1 < |a| {
        assert !PairAt(a, c, j);
      } else if |a| <= j {
        assert !PairAt(b, c, j - |a|);
      }
    }
    NowherePair(a + b, c);
  }

  lemma AbsentMakesNoPair(s: string, c: char)
    requires c !in s
    ensures !HasPair(s, c)
  {
    NowherePair(s, c);
  }
}
