/** Player identifiers: the hyphenated form the Mojang lookup returns and the
    dash-free form the Hypixel endpoints and profile members use. */
module PlayerIds {

  /** Python's `s[i:j]` with non-negative bounds: both ends are clamped to the
      length, so a short id yields short or empty groups instead of failing. */
  function Slice(s: string, i: nat, j: nat): (r: string)
    ensures |r| == (if j <= |s| then j else |s|) - (if i <= j && i <= |s| then i else if j <= |s| then j else |s|)
    ensures i <= j <= |s| ==> r == s[i..j]
    ensures i <= |s| < j ==> r == s[i..]
    ensures |s| <= i || j < i ==> r == []
  {
    var hi := if j <= |s| then j else |s|;
    var lo := if i <= hi then i else hi;
    s[lo..hi]
  }

  /** `uuid.replace('-', '')`. */
  function StripDashes(s: string): (r: string)
    ensures '-' !in r
    ensures |r| <= |s|
    ensures forall c :: c != '-' ==> (c in r <==> c in s)
  {
    if s == [] then []
    else if s[0] == '-' then StripDashes(s[1..])
    else [s[0]] + StripDashes(s[1..])
  }

  /** The Mojang id with hyphens after its 8th, 12th, 16th and 20th characters. */
  function Hyphenate(raw: string): (r: string)
    ensures |r| == |raw| + 4
    ensures |raw| >= 20 ==>
      r == raw[..8] + "-" + raw[8..12] + "-" + raw[12..16] + "-" + raw[16..20] + "-" + raw[20..]
  {
    Slice(raw, 0, 8) + ("-" + (Slice(raw, 8, 12) + ("-" + (Slice(raw, 12, 16) + ("-"
      + (Slice(raw, 16, 20) + ("-" + Slice(raw, 20, |raw|))))))))
  }

  /** Stripping distributes over concatenation. */
  lemma {:induction false} StripDashesAppend(a: string, b: string)
    ensures StripDashes(a + b) == StripDashes(a) + StripDashes(b)
    decreases |a|
  {
    if a == [] {
      assert a + b == b;
    } else {
      assert (a + b)[0] == a[0];
      assert (a + b)[1..] == a[1..] + b;
      StripDashesAppend(a[1..], b);
    }
  }

  /** A string without dashes is unchanged by stripping. */
  lemma {:induction false} StripDashesNoDashes(s: string)
    requires '-' !in s
    ensures StripDashes(s) == s
    decreases |s|
  {
    if s != [] {
      assert '-' !in s[1..];
      StripDashesNoDashes(s[1..]);
    }
  }

  /** Stripping twice strips nothing more. */
  lemma StripDashesIdempotent(s: string)
    ensures StripDashes(StripDashes(s)) == StripDashes(s)
  {
    StripDashesNoDashes(StripDashes(s));
  }

  /** Stripping a dash-free group followed by a dash keeps the group and
      drops the dash. */
  lemma StripGroup(group: string, rest: string)
    requires '-' !in group
    ensures StripDashes(group + ("-" + rest)) == group + StripDashes(rest)
  {
    StripDashesAppend(group, "-" + rest);
    StripDashesNoDashes(group);
    assert ("-" + rest)[1..] == rest;
  }

  /** Two adjacent slices join into one. */
  lemma SliceAdjacent(s: string, i: nat, j: nat, k: nat)
    requires i <= j <= k
    ensures Slice(s, i, j) + Slice(s, j, k) == Slice(s, i, k)
  {
    if k <= |s| {
      assert s[i..j] + s[j..k] == s[i..k];
    } else if j <= |s| {
      assert s[i..j] + s[j..] == s[i..];
    }
  }

  /** A slice of a dash-free string is dash-free. */
  lemma SliceNoDash(s: string, i: nat, j: nat)
    requires '-' !in s
    ensures '-' !in Slice(s, i, j)
  {
    var hi := if j <= |s| then j else |s|;
    var lo := if i <= hi then i else hi;
    assert forall k :: 0 <= k < hi - lo ==> Slice(s, i, j)[k] == s[lo + k];
  }

  /** Hyphenating a dash-free id and stripping the dashes gives the id back,
      whatever its length. */
  lemma HyphenateRoundTrip(raw: string)
    requires '-' !in raw
    ensures StripDashes(Hyphenate(raw)) == raw
  {
    var n := |raw|;
    var a, b, c, d, e := Slice(raw, 0, 8), Slice(raw, 8, 12), Slice(raw, 12, 16), Slice(raw, 16, 20), Slice(raw, 20, n);
    var top := if n < 20 then 20 else n;
    assert e == Slice(raw, 20, top);
    SliceAdjacent(raw, 16, 20, top);
    SliceAdjacent(raw, 12, 16, top);
    SliceAdjacent(raw, 8, 12, top);
    SliceAdjacent(raw, 0, 8, top);
    assert raw[0..n] == raw;
    assert raw == a + (b + (c + (d + e)));
    SliceNoDash(raw, 0, 8);
    SliceNoDash(raw, 8, 12);
    SliceNoDash(raw, 12, 16);
    SliceNoDash(raw, 16, 20);
    SliceNoDash(raw, 20, n);
    StripDashesNoDashes(e);
    StripGroup(d, e);
    StripGroup(c, d + ("-" + e));
    StripGroup(b, c + ("-" + (d + ("-" + e))));
    StripGroup(a, b + ("-" + (c + ("-" + (d + ("-" + e))))));
  }

  /** A 32-character id becomes 36 characters with dashes exactly at indices
      8, 13, 18 and 23 and its own characters everywhere else, in order. */
  lemma HyphenateLayout(raw: string)
    requires |raw| == 32
    ensures |Hyphenate(raw)| == 36
    ensures Hyphenate(raw)[8] == '-' && Hyphenate(raw)[13] == '-'
    ensures Hyphenate(raw)[18] == '-' && Hyphenate(raw)[23] == '-'
    ensures Hyphenate(raw) == raw[..8] + "-" + raw[8..12] + "-" + raw[12..16] + "-" + raw[16..20] + "-" + raw[20..]
  {
  }
}
