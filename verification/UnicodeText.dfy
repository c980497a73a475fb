/** Trimming as Rust's `str::trim` does it: by the Unicode White_Space property. */
module UnicodeText {
  predicate IsSpace(c: char) {
    || '\U{0009}' <= c <= '\U{000D}' || c == ' ' || c == '\U{0085}' || c == '\U{00A0}' || c == '\U{1680}'
    || '\U{2000}' <= c <= '\U{200A}' || c == '\U{2028}' || c == '\U{2029}' || c == '\U{202F}' || c == '\U{205F}'
    || c == '\U{3000}'
  }

  function TrimStart(s: string): string {
    if s != [] && IsSpace(s[0]) then TrimStart(s[1..]) else s
  }

  function TrimEnd(s: string): string {
    if s != [] && IsSpace(s[|s| - 1]) then TrimEnd(s[..|s| - 1]) else s
  }

  function Trim(s: string): string {
    TrimEnd(TrimStart(s))
  }

  predicate AllSpace(s: string) {
    forall k :: 0 <= k < |s| ==> IsSpace(s[k])
  }

  predicate Bare(s: string) {
    s == [] || (!IsSpace(s[0]) && !IsSpace(s[|s| - 1]))
  }

  lemma {:induction false} TrimStartSplits(s: string) returns (front: string)
    ensures s == front + TrimStart(s) && AllSpace(front)
    ensures TrimStart(s) == [] || !IsSpace(TrimStart(s)[0])
  {
    front := [];
    if s != [] && IsSpace(s[0]) {
      var rest := TrimStartSplits(s[1..]);
      front := [s[0]] + rest;
      assert s == [s[0]] + s[1..];
    }
  }

  lemma {:induction false} TrimEndSplits(s: string) returns (back: string)
    ensures s == TrimEnd(s) + back && AllSpace(back)
    ensures TrimEnd(s) == [] || (!IsSpace(TrimEnd(s)[|TrimEnd(s)| - 1]) && TrimEnd(s)[0] == s[0])
  {
    back := [];
    if s != [] && IsSpace(s[|s| - 1]) {
      var rest := TrimEndSplits(s[..|s| - 1]);
      back := rest + [s[|s| - 1]];
      assert s == s[..|s| - 1] + [s[|s| - 1]];
    }
  }

  /** Trimming removes white space at both ends, all of it, and nothing else. */
  lemma TrimSplits(s: string) returns (front: string, back: string)
    ensures s == front + Trim(s) + back && AllSpace(front) && AllSpace(back) && Bare(Trim(s))
  {
    front := TrimStartSplits(s);
    back := TrimEndSplits(TrimStart(s));
    assert s == front + (Trim(s) + back) == front + Trim(s) + back;
  }

  lemma {:induction false} TrimStartAll(s: string)
    requires AllSpace(s)
    ensures TrimStart(s) == []
  {
    if s != [] { TrimStartAll(s[1..]); }
  }

  /** Nothing is left exactly when there was nothing but white space. */
  lemma TrimIsEmpty(s: string)
    ensures Trim(s) == [] <==> AllSpace(s)
  {
    var front, back := TrimSplits(s);
    if AllSpace(s) { TrimStartAll(s); }
  }

  /** A string is left alone exactly when it has no white space at either end. */
  lemma TrimIsIdentity(s: string)
    ensures Trim(s) == s <==> Bare(s)
  {
    if Bare(s) {
      assert TrimStart(s) == s && TrimEnd(s) == s;
    } else {
      var front, back := TrimSplits(s);
    }
  }
}
