// The Redis keys of chaos_service/rate_limiter.py: which rules and callers share a counter.

module RateLimitKeys {
  import opened Decimals
  import opened Whitespace

  function SafeChar(c: char): char {
    if c == ' ' || c == '/' || c == ':' then '_' else c
  }

  function Safe(s: string): string {
    seq(|s|, i requires 0 <= i < |s| => SafeChar(s[i]))
  }

  function NormalizeSegment(s: string): string {
    var text := Strip(s);
    if text == "" then "unknown" else Safe(text)
  }

  // A segment has the length of the stripped text and differs from it exactly at the three separators,
  // where it has an underscore; blank text becomes "unknown".
  lemma SegmentCharacters(s: string) returns (i: nat, j: nat)
    ensures i <= j <= |s| && (forall m | 0 <= m < i || j <= m < |s| :: IsSpace(s[m]))
    ensures i == j ==> NormalizeSegment(s) == "unknown"
    ensures i < j ==>
      && !IsSpace(s[i]) && !IsSpace(s[j - 1]) && |NormalizeSegment(s)| == j - i
      && forall m | 0 <= m < j - i :: NormalizeSegment(s)[m] == if s[i + m] in " /:" then '_' else s[i + m]
  {
    i, j := StripSplits(s);
    assert i < j ==> Strip(s) != "";
  }

  // Text that has no separator and no outer whitespace.
  predicate Plain(s: string) {
    s != "" && !IsSpace(s[0]) && !IsSpace(s[|s| - 1]) && ' ' !in s && '/' !in s && ':' !in s
  }

  lemma PlainStays(s: string)
    requires Plain(s)
    ensures NormalizeSegment(s) == s
  {
    assert Strip(s) == s;
    forall m | 0 <= m < |s|
      ensures SafeChar(s[m]) == s[m]
    {
      assert s[m] in s;
    }
  }

  predicate NoColon(s: string) { ':' !in s }

  function Join(parts: seq<string>): string
    requires parts != []
  {
    if |parts| == 1 then parts[0] else parts[0] + ":" + Join(parts[1..])
  }

  function Segments(service: string, resource: string, dimension: string, subject: string): seq<string> {
    [NormalizeSegment(service), "rate", NormalizeSegment(resource), NormalizeSegment(dimension),
      NormalizeSegment(subject)]
  }

  function BaseKey(service: string, resource: string, dimension: string, subject: string): string {
    Join(Segments(service, resource, dimension, subject))
  }

  function BucketKey(base: string, bucket: int): string {
    base + ":" + IntText(bucket)
  }

  lemma SegmentHasNoColon(s: string)
    ensures NoColon(NormalizeSegment(s))
  {
  }

  lemma NumberHasNoColon(n: int)
    ensures NoColon(IntText(n))
  {
    NatRoundTrip(if n < 0 then -n else n);
  }

  // A colon-free prefix ends at the first colon.
  lemma SplitFirst(a: string, x: string, b: string, y: string)
    requires NoColon(a) && NoColon(b) && a + ":" + x == b + ":" + y
    ensures a == b && x == y
  {
    var s := a + ":" + x;
    assert s[|a|] == ':' && s[|b|] == ':';
    assert forall i | 0 <= i < |a| :: s[i] == a[i];
    assert forall i | 0 <= i < |b| :: s[i] == b[i];
    assert |a| == |b|;
    assert a == s[..|a|] && b == s[..|b|] && x == s[|a| + 1..] && y == s[|b| + 1..];
  }

  lemma JoinHasColon(parts: seq<string>)
    requires |parts| > 1
    ensures !NoColon(Join(parts))
  {
    assert Join(parts)[|parts[0]|] == ':';
  }

  // Joining colon-free segments loses nothing, not even how many there were.
  lemma {:induction false} JoinInjective(a: seq<string>, b: seq<string>)
    requires a != [] && b != [] && Join(a) == Join(b)
    requires (forall s | s in a :: NoColon(s)) && (forall s | s in b :: NoColon(s))
    ensures a == b
  {
    if |a| == 1 || |b| == 1 {
      if |a| > 1 { JoinHasColon(a); }
      if |b| > 1 { JoinHasColon(b); }
    } else {
      SplitFirst(a[0], Join(a[1..]), b[0], Join(b[1..]));
      JoinInjective(a[1..], b[1..]);
      assert a == [a[0]] + a[1..] && b == [b[0]] + b[1..];
    }
  }

  lemma {:induction false} JoinSnoc(parts: seq<string>, last: string)
    requires parts != []
    ensures Join(parts + [last]) == Join(parts) + ":" + last
  {
    if |parts| > 1 {
      JoinSnoc(parts[1..], last);
      assert (parts + [last])[1..] == parts[1..] + [last];
    } else {
      assert (parts + [last])[1..] == [last];
    }
  }

  lemma SegmentsHaveNoColon(service: string, resource: string, dimension: string, subject: string)
    ensures forall s | s in Segments(service, resource, dimension, subject) :: NoColon(s)
  {
    SegmentHasNoColon(service);
    SegmentHasNoColon(resource);
    SegmentHasNoColon(dimension);
    SegmentHasNoColon(subject);
  }

  // Two callers share a sliding counter exactly when service, resource, dimension and subject normalize alike.
  lemma SharedBaseKey(v1: string, r1: string, d1: string, s1: string, v2: string, r2: string, d2: string, s2: string)
    ensures BaseKey(v1, r1, d1, s1) == BaseKey(v2, r2, d2, s2) <==>
            NormalizeSegment(v1) == NormalizeSegment(v2) && NormalizeSegment(r1) == NormalizeSegment(r2) &&
            NormalizeSegment(d1) == NormalizeSegment(d2) && NormalizeSegment(s1) == NormalizeSegment(s2)
  {
    var a, b := Segments(v1, r1, d1, s1), Segments(v2, r2, d2, s2);
    SegmentsHaveNoColon(v1, r1, d1, s1);
    SegmentsHaveNoColon(v2, r2, d2, s2);
    if Join(a) == Join(b) {
      JoinInjective(a, b);
      assert a[0] == b[0] && a[2] == b[2] && a[3] == b[3] && a[4] == b[4];
    }
  }

  // So two subjects without separators and outer whitespace, such as addresses or tokens, never share one.
  lemma PlainSubjectsAreApart(v: string, r: string, d: string, s1: string, s2: string)
    requires Plain(s1) && Plain(s2)
    ensures BaseKey(v, r, d, s1) == BaseKey(v, r, d, s2) <==> s1 == s2
  {
    SharedBaseKey(v, r, d, s1, v, r, d, s2);
    PlainStays(s1);
    PlainStays(s2);
  }

  // Distinct buckets have distinct counters, and no bucket counter is a sliding counter.
  lemma BucketKeysAreApart(v1: string, r1: string, d1: string, s1: string, b1: int, v2: string, r2: string, d2: string,
      s2: string, b2: int)
    ensures
      var k1, k2 := BaseKey(v1, r1, d1, s1), BaseKey(v2, r2, d2, s2);
      (BucketKey(k1, b1) == BucketKey(k2, b2) <==> k1 == k2 && b1 == b2) && BucketKey(k1, b1) != k2
  {
    var a, b := Segments(v1, r1, d1, s1), Segments(v2, r2, d2, s2);
    SegmentsHaveNoColon(v1, r1, d1, s1);
    SegmentsHaveNoColon(v2, r2, d2, s2);
    var x, y := a + [IntText(b1)], b + [IntText(b2)];
    JoinSnoc(a, IntText(b1));
    JoinSnoc(b, IntText(b2));
    NumberHasNoColon(b1);
    NumberHasNoColon(b2);
    if Join(x) == Join(y) {
      JoinInjective(x, y);
      assert x[..5] == a && y[..5] == b && x[5] == y[5];
      IntRoundTrip(b1);
      IntRoundTrip(b2);
    }
    assert |x| != |b|;
    if Join(x) == Join(b) {
      JoinInjective(x, b);
    }
  }
}
