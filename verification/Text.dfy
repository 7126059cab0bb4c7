/** The string operations the text formats rest on: Go's `strings.Split`, `SplitN(_, _, 2)` and `TrimSpace`. */
module Text {

  /** Index of the first `c`, or the length. */
  function Find(s: string, c: char): (i: nat)
    ensures i <= |s| && c !in s[..i] && (i < |s| ==> s[i] == c)
  {
    if s == "" || s[0] == c then 0
    else
      var i := 1 + Find(s[1..], c);
      assert s[..i] == [s[0]] + s[1..][..i - 1];
      i
  }

  function Split(s: string, c: char): (parts: seq<string>)
    ensures |parts| >= 1
    ensures forall p | p in parts :: c !in p
  {
    var i := Find(s, c);
    if i == |s| then assert s[..i] == s; [s] else [s[..i]] + Split(s[i + 1..], c)
  }

  /** At most two parts: the separator only counts once. */
  function SplitN2(s: string, c: char): seq<string> {
    var i := Find(s, c);
    if i == |s| then [s] else [s[..i], s[i + 1..]]
  }

  /** Unicode White_Space. */
  predicate IsSpace(c: char) {
    || c in "\t\n\U{0B}\U{0C}\r \U{85}\U{A0}\U{1680}\U{2028}\U{2029}\U{202F}\U{205F}\U{3000}"
    || '\U{2000}' <= c <= '\U{200A}'
  }

  function TrimLeft(s: string): string { if s != "" && IsSpace(s[0]) then TrimLeft(s[1..]) else s }
  function TrimRight(s: string): string {
    if s != "" && IsSpace(s[|s| - 1]) then TrimRight(s[..|s| - 1]) else s
  }
  function TrimSpace(s: string): string { TrimRight(TrimLeft(s)) }

  predicate Blank(s: string) { forall c | c in s :: IsSpace(c) }

  // ----- splitting

  lemma FindAfter(a: string, c: char, b: string)
    requires c !in a
    ensures Find(a + [c] + b, c) == |a|
  {
    var s := a + [c] + b;
    var i := Find(s, c);
    assert s[|a|] == c;
    assert forall j | 0 <= j < |a| :: s[j] == a[j] && a[j] in a;
    assert forall j | 0 <= j < i :: s[j] in s[..i];
  }

  lemma SplitFirst(a: string, c: char, b: string)
    requires c !in a
    ensures Split(a + [c] + b, c) == [a] + Split(b, c)
    ensures SplitN2(a + [c] + b, c) == [a, b]
  {
    FindAfter(a, c, b);
    var s := a + [c] + b;
    assert s[..|a|] == a && s[|a| + 1..] == b;
  }

  lemma SplitNone(a: string, c: char)
    requires c !in a
    ensures Find(a, c) == |a| && Split(a, c) == [a] && SplitN2(a, c) == [a]
  {
  }

  /** Splitting distributes over a separator, wherever it stands. */
  lemma {:induction false} SplitConcat(a: string, c: char, b: string)
    ensures Split(a + [c] + b, c) == Split(a, c) + Split(b, c)
    decreases |a|
  {
    var i := Find(a, c);
    if i == |a| {
      assert a[..i] == a;
      SplitFirst(a, c, b);
    } else {
      var front, rest := a[..i], a[i + 1..];
      assert a == front + [c] + rest;
      assert a + [c] + b == front + [c] + (rest + [c] + b);
      SplitFirst(front, c, rest + [c] + b);
      SplitConcat(rest, c, b);
    }
  }

  // ----- trimming

  lemma {:induction false} TrimLeftParts(s: string)
    ensures |TrimLeft(s)| <= |s| && TrimLeft(s) == s[|s| - |TrimLeft(s)|..]
    ensures TrimLeft(s) == "" || !IsSpace(TrimLeft(s)[0])
    ensures TrimLeft(s) == "" <==> Blank(s)
  {
    if s != "" {
      assert s == [s[0]] + s[1..];
      if IsSpace(s[0]) { TrimLeftParts(s[1..]); }
    }
  }

  lemma {:induction false} TrimRightParts(s: string)
    ensures |TrimRight(s)| <= |s| && TrimRight(s) == s[..|TrimRight(s)|]
    ensures TrimRight(s) == "" || !IsSpace(TrimRight(s)[|TrimRight(s)| - 1])
    ensures TrimRight(s) == "" <==> Blank(s)
  {
    if s != "" {
      assert s == s[..|s| - 1] + [s[|s| - 1]];
      if IsSpace(s[|s| - 1]) { TrimRightParts(s[..|s| - 1]); }
    }
  }

  /** Trimming blanks nothing but blanks, invents no character, and happens once. */
  lemma TrimSpaceFacts(s: string)
    ensures TrimSpace(s) == "" <==> Blank(s)
    ensures forall c | c in TrimSpace(s) :: c in s
    ensures TrimSpace(TrimSpace(s)) == TrimSpace(s)
  {
    var l := TrimLeft(s);
    TrimLeftParts(s);
    TrimRightParts(l);
    var t := TrimRight(l);
    if l != "" {
      assert !IsSpace(l[0]);
      assert l[0] in l;
      assert t[0] == l[0];
      assert TrimLeft(t) == t;
    }
  }

  lemma {:induction false} TrimLeftSkips(a: string, t: string)
    requires Blank(a) && (t != "" ==> !IsSpace(t[0]))
    ensures TrimLeft(a + t) == t
  {
    if a == "" {
      assert a + t == t;
    } else {
      assert (a + t)[0] == a[0] && a[0] in a && (a + t)[1..] == a[1..] + t;
      TrimLeftSkips(a[1..], t);
    }
  }

  lemma {:induction false} TrimRightSkips(t: string, b: string)
    requires Blank(b) && (t != "" ==> !IsSpace(t[|t| - 1]))
    ensures TrimRight(t + b) == t
  {
    if b == "" {
      assert t + b == t;
    } else {
      var n := |b| - 1;
      assert (t + b)[|t + b| - 1] == b[n] && b[n] in b && (t + b)[..|t + b| - 1] == t + b[..n];
      TrimRightSkips(t, b[..n]);
    }
  }

  /** Trimming takes off exactly the blanks around what neither begins nor ends with one. */
  lemma TrimSpaceIs(a: string, t: string, b: string)
    requires Blank(a) && Blank(b) && t != "" && !IsSpace(t[0]) && !IsSpace(t[|t| - 1])
    ensures TrimSpace(a + t + b) == t
  {
    assert a + t + b == a + (t + b);
    TrimLeftSkips(a, t + b);
    TrimRightSkips(t, b);
  }

  /** Among the ASCII characters these six are blank. */
  lemma AsciiSpaces(c: char)
    requires c < '\U{80}'
    ensures IsSpace(c) <==> c in " \t\n\r\U{0B}\U{0C}"
  {
  }
}
