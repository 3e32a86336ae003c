// The byte-level and list loops of internal/browser/extract.go.
module Extract {
  import opened Utf8

  const DEFAULT_MAX_TEXT_CHARS := 20000
  const SERVER_MAX_TEXT_CHARS := 20000

  function ClampMaxTextChars(n: int): (r: int)
    ensures 1 <= r <= 20000
    ensures 0 < n <= 20000 ==> r == n
    ensures n <= 0 || n > 20000 ==> r == 20000
  {
    if n <= 0 then DEFAULT_MAX_TEXT_CHARS
    else if n > SERVER_MAX_TEXT_CHARS then SERVER_MAX_TEXT_CHARS
    else n
  }

  function Min(a: int, b: int): int { if a <= b then a else b }

  // ---- Truncation ------------------------------------------------------------

  // The first n runes of s, as bytes.
  function Truncate(s: seq<Byte>, n: int): seq<Byte>
    decreases |s|
  {
    if s == [] || n <= 0 then [] else s[..Width(s)] + Truncate(s[Width(s)..], n - 1)
  }

  lemma OneRuneFurther(s: seq<Byte>, i: nat, m: int)
    requires i < |s| && m > 0
    ensures var w := Width(s[i..]);
      s[..i] + Truncate(s[i..], m) == s[..i + w] + Truncate(s[i + w..], m - 1)
  {
    var w := Width(s[i..]);
    assert s[i..][w..] == s[i + w..];
    assert s[..i + w] == s[..i] + s[i..][..w];
  }

  method TruncateToCodePoints(s: seq<Byte>, n: int) returns (r: seq<Byte>)
    ensures r == Truncate(s, n)
  {
    if n <= 0 {
      return [];
    }
    var count, i := 0, 0;
    while i < |s|
      invariant 0 <= i <= |s| && 0 <= count <= n
      invariant s[..i] + Truncate(s[i..], n - count) == Truncate(s, n)
    {
      if count == n {
        return s[..i];
      }
      var w := Width(s[i..]);
      OneRuneFurther(s, i, n - count);
      count := count + 1;
      i := i + w;
    }
    assert s[..i] == s;
    return s;
  }

  lemma {:induction false} TruncateIsPrefix(s: seq<Byte>, n: int)
    ensures Truncate(s, n) <= s
    ensures Boundary(s, |Truncate(s, n)|)
    decreases |s|
  {
    if s != [] && n > 0 {
      var w := Width(s);
      TruncateIsPrefix(s[w..], n - 1);
      assert s == s[..w] + s[w..];
    }
  }

  // The result decodes to exactly the first min(n, count) runes.
  lemma {:induction false} TruncateDecodes(s: seq<Byte>, n: nat)
    ensures Decode(Truncate(s, n)) == Decode(s)[..Min(n, |Decode(s)|)]
    decreases |s|
  {
    if s != [] && n > 0 {
      TruncateDecodes(s[Width(s)..], n - 1);
      TruncatedStart(s, n);
      TakeMore(FirstRune(s), Decode(s[Width(s)..]), n);
    }
  }

  lemma TakeMore(c: char, rest: string, n: nat)
    requires n > 0
    ensures ([c] + rest)[..Min(n, 1 + |rest|)] == [c] + rest[..Min(n - 1, |rest|)]
  {
  }

  // Every boundary prefix with at most n runes is no longer than the result.
  lemma {:induction false} BoundaryPrefixFits(s: seq<Byte>, n: nat, k: nat)
    requires k <= |s| && Boundary(s, k) && |Decode(s[..k])| <= n
    ensures k <= |Truncate(s, n)|
    decreases |s|
  {
    if k > 0 {
      var w := Width(s);
      FirstRuneOfPrefix(s, k);
      assert s[..k][w..] == s[w..][..k - w];
      BoundaryPrefixFits(s[w..], n - 1, k - w);
    }
  }

  // On arbitrary bytes the result is the longest prefix that ends on a decode
  // boundary and has at most n runes; it holds the first min(n, count) runes.
  lemma TruncateIsLongestPrefix(s: seq<Byte>, n: nat)
    ensures var t := Truncate(s, n);
      && t <= s && Boundary(s, |t|)
      && Decode(t) == Decode(s)[..Min(n, |Decode(s)|)]
      && (forall k: nat :: k <= |s| && Boundary(s, k) && |Decode(s[..k])| <= n ==> k <= |t|)
  {
    TruncateIsPrefix(s, n);
    TruncateDecodes(s, n);
    forall k: nat | k <= |s| && Boundary(s, k) && |Decode(s[..k])| <= n ensures k <= |Truncate(s, n)| {
      BoundaryPrefixFits(s, n, k);
    }
  }

  // Truncating well-formed text truncates its characters: no sequence is split.
  lemma {:induction false} TruncateEncoded(rs: string, n: nat)
    ensures Truncate(Encode(rs), n) == Encode(rs[..Min(n, |rs|)])
    decreases |rs|
  {
    if rs != [] && n > 0 {
      var head, rest := EncodeRune(rs[0]), Encode(rs[1..]);
      EncodedRuneDecodes(rs[0], rest);
      assert (head + rest)[..|head|] == head && (head + rest)[|head|..] == rest;
      TruncateEncoded(rs[1..], n - 1);
      var m := Min(n, |rs|);
      assert rs[..m][1..] == rs[1..][..m - 1];
    }
  }

  lemma TruncateKeepsWellFormed(s: seq<Byte>, n: int)
    requires WellFormed(s)
    ensures WellFormed(Truncate(s, n))
  {
    if n <= 0 {
      assert Encode([]) == [];
    } else {
      var rs: string :| Encode(rs) == s;
      TruncateEncoded(rs, n);
    }
  }

  // Truncating to a and then to b truncates to the smaller of the two.
  lemma {:induction false} TruncateTwice(s: seq<Byte>, a: int, b: int)
    ensures Truncate(Truncate(s, a), b) == Truncate(s, Min(a, b))
    decreases |s|
  {
    if s != [] && a > 0 && b > 0 {
      TruncateTwice(s[Width(s)..], a - 1, b - 1);
      TruncatedStart(s, a);
    }
  }

  // Truncation keeps the first rune.
  lemma TruncatedStart(s: seq<Byte>, n: int)
    requires s != [] && n > 0
    ensures var w, t := Width(s), Truncate(s, n);
      && t != [] && Width(t) == w && FirstRune(t) == FirstRune(s) && w <= |t| && t[..w] == s[..w]
      && t[w..] == Truncate(s[w..], n - 1)
  {
    var t := Truncate(s, n);
    TruncateIsPrefix(s, n);
    assert t == s[..|t|];
    FirstRuneOfPrefix(s, |t|);
  }

  // ---- Links -------------------------------------------------------------------

  datatype VisibleLink = VisibleLink(text: string, url: string)

  // Links whose URL is neither empty nor in seen, each URL's first occurrence only.
  function Firsts(links: seq<VisibleLink>, seen: set<string>): seq<VisibleLink> {
    if links == [] then []
    else if links[0].url == "" || links[0].url in seen then Firsts(links[1..], seen)
    else [links[0]] + Firsts(links[1..], seen + {links[0].url})
  }

  function Take<T>(s: seq<T>, n: int): seq<T> { if n <= 0 then [] else s[..Min(n, |s|)] }

  lemma FirstsFrom(links: seq<VisibleLink>, i: nat, seen: set<string>)
    requires i < |links|
    ensures Firsts(links[i..], seen) ==
      if links[i].url == "" || links[i].url in seen then Firsts(links[i + 1..], seen)
      else [links[i]] + Firsts(links[i + 1..], seen + {links[i].url})
  {
    assert links[i..][1..] == links[i + 1..];
  }

  // nil and the empty slice are both [].
  method DedupeLinks(links: seq<VisibleLink>, limit: int) returns (r: seq<VisibleLink>)
    ensures r == Take(Firsts(links, {}), limit)
  {
    if limit <= 0 {
      return [];
    }
    var seen: set<string>, out: seq<VisibleLink> := {}, [];
    for i := 0 to |links|
      invariant |out| < limit
      invariant out + Firsts(links[i..], seen) == Firsts(links, {})
    {
      var l := links[i];
      FirstsFrom(links, i, seen);
      if l.url != "" && l.url !in seen {
        seen := seen + {l.url};
        out := out + [l];
        if |out| == limit {
          return out;
        }
      }
    }
    return out;
  }

  // What Firsts keeps: no empty URL, no URL twice, and of every other URL the
  // link that comes first, in document order.
  predicate FirstOccurrence(links: seq<VisibleLink>, i: nat) {
    && i < |links|
    && links[i].url != ""
    && (forall j :: 0 <= j < i ==> links[j].url != links[i].url)
  }

  // The positions of the kept links, in order.
  function FirstPositions(links: seq<VisibleLink>, from: nat): seq<nat>
    requires from <= |links|
    decreases |links| - from
  {
    if from == |links| then []
    else (if FirstOccurrence(links, from) then [from] else []) + FirstPositions(links, from + 1)
  }

  // The nonempty URLs of the links before position n.
  function SeenBefore(links: seq<VisibleLink>, n: nat): (r: set<string>)
    requires n <= |links|
    ensures forall j :: 0 <= j < n && links[j].url != "" ==> links[j].url in r
    ensures forall u :: u in r ==> u != "" && exists j :: 0 <= j < n && links[j].url == u
  {
    if n == 0 then {}
    else if links[n - 1].url == "" then SeenBefore(links, n - 1)
    else SeenBefore(links, n - 1) + {links[n - 1].url}
  }

  lemma FirstIffUnseen(links: seq<VisibleLink>, i: nat)
    requires i < |links|
    ensures FirstOccurrence(links, i) <==> links[i].url != "" && links[i].url !in SeenBefore(links, i)
    ensures links[i].url in SeenBefore(links, i) ==> SeenBefore(links, i + 1) == SeenBefore(links, i)
  {
    assert links[i].url in SeenBefore(links, i) ==> SeenBefore(links, i) + {links[i].url} == SeenBefore(links, i);
  }

  lemma {:induction false} FirstsAt(links: seq<VisibleLink>, from: nat)
    requires from <= |links|
    ensures |Firsts(links[from..], SeenBefore(links, from))| == |FirstPositions(links, from)|
    ensures forall k :: 0 <= k < |FirstPositions(links, from)| ==>
      FirstPositions(links, from)[k] < |links| &&
      Firsts(links[from..], SeenBefore(links, from))[k] == links[FirstPositions(links, from)[k]]
    decreases |links| - from
  {
    if from < |links| {
      FirstIffUnseen(links, from);
      FirstsFrom(links, from, SeenBefore(links, from));
      FirstsAt(links, from + 1);
      if FirstOccurrence(links, from) {
        assert FirstPositions(links, from) == [from] + FirstPositions(links, from + 1);
      } else {
        assert FirstPositions(links, from) == FirstPositions(links, from + 1);
      }
    }
  }

  // The result lists, in document order, exactly the links that are the first
  // with their nonempty URL, up to the limit.
  lemma DedupeKeepsFirstOccurrences(links: seq<VisibleLink>, limit: nat)
    ensures var out, at := Take(Firsts(links, {}), limit), FirstPositions(links, 0);
      && |out| == Min(limit, |at|)
      && (forall k :: 0 <= k < |out| ==> at[k] < |links| && out[k] == links[at[k]])
      && (forall i :: i in at <==> FirstOccurrence(links, i))
      && (forall j, k :: 0 <= j < k < |at| ==> at[j] < at[k])
  {
    FirstsAt(links, 0);
    assert links[0..] == links;
    PositionsOrdered(links, 0);
  }

  lemma {:induction false} PositionsOrdered(links: seq<VisibleLink>, from: nat)
    requires from <= |links|
    ensures forall i :: i in FirstPositions(links, from) <==> from <= i && FirstOccurrence(links, i)
    ensures forall j, k :: 0 <= j < k < |FirstPositions(links, from)| ==>
      FirstPositions(links, from)[j] < FirstPositions(links, from)[k]
    decreases |links| - from
  {
    if from < |links| {
      PositionsOrdered(links, from + 1);
      var rest := FirstPositions(links, from + 1);
      forall j | 0 <= j < |rest| ensures from < rest[j] { assert rest[j] in rest; }
    }
  }

  predicate AllDistinct(links: seq<VisibleLink>, seen: set<string>) {
    && (forall i :: 0 <= i < |links| ==> links[i].url != "" && links[i].url !in seen)
    && (forall i, j :: 0 <= i < j < |links| ==> links[i].url != links[j].url)
  }

  lemma {:induction false} FirstsDistinct(links: seq<VisibleLink>, seen: set<string>)
    ensures AllDistinct(Firsts(links, seen), seen)
    decreases |links|
  {
    if links != [] {
      if links[0].url == "" || links[0].url in seen {
        FirstsDistinct(links[1..], seen);
      } else {
        FirstsDistinct(links[1..], seen + {links[0].url});
      }
    }
  }

  lemma {:induction false} FirstsOfDistinct(links: seq<VisibleLink>, seen: set<string>)
    requires AllDistinct(links, seen)
    ensures Firsts(links, seen) == links
    decreases |links|
  {
    if links != [] {
      FirstsOfDistinct(links[1..], seen + {links[0].url});
    }
  }

  // Deduplicating at n and then at m deduplicates at the smaller of the two.
  lemma DedupeTwice(links: seq<VisibleLink>, n: int, m: int)
    ensures Take(Firsts(Take(Firsts(links, {}), n), {}), m) == Take(Firsts(links, {}), Min(n, m))
  {
    FirstsDistinct(links, {});
    FirstsOfDistinct(Take(Firsts(links, {}), n), {});
  }
}
