/** Colours of photo objects: a new object takes the least used colour of the palette. */
module PhotoObjects {
  import opened Prelude

  type Palette = seq<string>

  predicate AllDifferent(palette: Palette) {
    forall i, j :: 0 <= i < j < |palette| ==> palette[i] != palette[j]
  }

  // ---------------------------------------------------------------- counts

  function MinOf(c: seq<nat>): (m: nat)
    requires c != []
    ensures m in c && forall i :: 0 <= i < |c| ==> m <= c[i]
  {
    if |c| == 1 then c[0] else
      var m := MinOf(c[..|c| - 1]);
      if c[|c| - 1] < m then c[|c| - 1] else m
  }

  function MaxOf(c: seq<nat>): (m: nat)
    requires c != []
    ensures m in c && forall i :: 0 <= i < |c| ==> c[i] <= m
  {
    if |c| == 1 then c[0] else
      var m := MaxOf(c[..|c| - 1]);
      if c[|c| - 1] > m then c[|c| - 1] else m
  }

  function IndexOf(c: seq<nat>, v: nat): (i: nat)
    requires v in c
    ensures i < |c| && c[i] == v && forall j :: 0 <= j < i ==> c[j] != v
  {
    if c[0] == v then 0 else 1 + IndexOf(c[1..], v)
  }

  /** How often each palette colour is in use; other colours do not count. */
  function Counts(palette: Palette, used: seq<string>): (c: seq<nat>)
    ensures |c| == |palette|
  {
    seq(|palette|, i requires 0 <= i < |palette| => multiset(used)[palette[i]])
  }

  function NextColor(palette: Palette, used: seq<string>): string
    requires palette != []
  {
    var counts := Counts(palette, used);
    palette[IndexOf(counts, MinOf(counts))]
  }

  /** The first least used position. */
  function Place(c: seq<nat>): nat
    requires c != []
  {
    IndexOf(c, MinOf(c))
  }

  /** One more object of the first least used colour. */
  function Bump(c: seq<nat>): (r: seq<nat>)
    requires c != []
    ensures r != []
  {
    c[Place(c) := c[Place(c)] + 1]
  }

  function Gap(c: seq<nat>): nat
    requires c != []
  {
    MaxOf(c) - MinOf(c)
  }

  /** No colour in use less often, and none earlier in the palette as rarely. */
  lemma NextColorIsFirstLeastUsed(palette: Palette, used: seq<string>, k: nat)
    requires palette != [] && AllDifferent(palette) && k < |palette|
    ensures NextColor(palette, used) == palette[k] <==>
      (forall j :: 0 <= j < |palette| ==> multiset(used)[palette[k]] <= multiset(used)[palette[j]])
      && forall j :: 0 <= j < k ==> multiset(used)[palette[k]] < multiset(used)[palette[j]]
  {
    var c := Counts(palette, used);
    var i := Place(c);
    assert forall j :: 0 <= j < |palette| ==> c[j] == multiset(used)[palette[j]];
    if i != k { assert palette[i] != palette[k]; }
  }

  /** Allocating for a new object raises the count at that place only. */
  lemma CountsAfter(palette: Palette, used: seq<string>)
    requires palette != [] && AllDifferent(palette)
    ensures Counts(palette, used + [NextColor(palette, used)]) == Bump(Counts(palette, used))
  {
    var c := Counts(palette, used);
    var color := NextColor(palette, used);
    assert multiset(used + [color]) == multiset(used) + multiset{color};
    forall j | 0 <= j < |palette|
      ensures Counts(palette, used + [color])[j] == Bump(c)[j]
    {
      if j != Place(c) { assert palette[j] != color; }
    }
  }

  // ---------------------------------------------------------------- many allocations

  /** The catalogue's colours after n more objects. */
  function Allocated(palette: Palette, used: seq<string>, n: nat): seq<string>
    requires palette != []
  {
    if n == 0 then used
    else var before := Allocated(palette, used, n - 1); before + [NextColor(palette, before)]
  }

  /** q full rounds, and one more for the first r places. */
  predicate Rounds(c: seq<nat>, q: int, r: int) {
    0 <= r < |c| && forall i :: 0 <= i < |c| ==> c[i] == q + (if i < r then 1 else 0)
  }

  lemma NextRound(c: seq<nat>, q: int, r: int)
    requires Rounds(c, q, r)
    ensures Place(c) == r
    ensures if r + 1 < |c| then Rounds(Bump(c), q, r + 1) else Rounds(Bump(c), q + 1, 0)
  {
    assert c[r] == q;
    MinIs(c, q);
  }

  lemma NextQuotient(n: nat, m: nat)
    requires m > 0
    ensures n % m + 1 < m ==> (n + 1) / m == n / m && (n + 1) % m == n % m + 1
    ensures n % m + 1 == m ==> (n + 1) / m == n / m + 1 && (n + 1) % m == 0
  {
    var q, r := n / m, n % m;
    if r + 1 < m {
      QuotientIs(n + 1, m, q, r + 1);
    } else {
      assert (q + 1) * m == q * m + m;
      QuotientIs(n + 1, m, q + 1, 0);
    }
  }

  lemma QuotientIs(a: nat, m: nat, q: nat, r: nat)
    requires m > 0 && a == q * m + r && r < m
    ensures a / m == q && a % m == r
  {
    SameQuotient(m, q, r, a / m, a % m);
  }

  lemma SameQuotient(m: nat, q: nat, r: nat, q': nat, r': nat)
    requires r < m && r' < m && q * m + r == q' * m + r'
    ensures q == q' && r == r'
  {
    if q > q' { Multiples(m, q, q'); } else if q < q' { Multiples(m, q', q); }
  }

  lemma Multiples(m: nat, a: nat, b: nat)
    requires a > b
    ensures a * m >= b * m + m
  {
    assert a * m == b * m + m + (a - b - 1) * m;
  }

  lemma {:induction false} AllocationsGoRound(palette: Palette, used: seq<string>, n: nat)
    requires palette != [] && AllDifferent(palette) && forall i :: 0 <= i < |palette| ==> palette[i] !in used
    ensures Rounds(Counts(palette, Allocated(palette, used, n)), n / |palette|, n % |palette|)
  {
    hide Rounds, Counts, NextColor, AllDifferent, Bump;
    if n == 0 {
      NothingUsed(palette, used);
    } else {
      var before := Allocated(palette, used, n - 1);
      AllocationsGoRound(palette, used, n - 1);
      NextRound(Counts(palette, before), (n - 1) / |palette|, (n - 1) % |palette|);
      NextQuotient(n - 1, |palette|);
      CountsAfter(palette, before);
    }
  }

  lemma NothingUsed(palette: Palette, used: seq<string>)
    requires palette != [] && forall i :: 0 <= i < |palette| ==> palette[i] !in used
    ensures Rounds(Counts(palette, used), 0, 0)
  {}

  /** From a catalogue without palette colours, object k gets colour k modulo the palette. */
  lemma {:induction false} ColorsCycle(palette: Palette, used: seq<string>, n: nat, k: nat)
    requires palette != [] && AllDifferent(palette) && k < n && forall i :: 0 <= i < |palette| ==> palette[i] !in used
    ensures |Allocated(palette, used, n)| == |used| + n
    ensures Allocated(palette, used, n)[|used| + k] == palette[k % |palette|]
  {
    hide Rounds, Counts, AllDifferent;
    if k < n - 1 {
      ColorsCycle(palette, used, n - 1, k);
    } else {
      AllocatedSize(palette, used, k);
      AllocationsGoRound(palette, used, k);
      NextRound(Counts(palette, Allocated(palette, used, k)), k / |palette|, k % |palette|);
    }
  }

  lemma {:induction false} AllocatedSize(palette: Palette, used: seq<string>, n: nat)
    requires palette != []
    ensures |Allocated(palette, used, n)| == |used| + n
  {
    hide NextColor;
    if n > 0 { AllocatedSize(palette, used, n - 1); }
  }

  // ---------------------------------------------------------------- balance

  lemma MaxIs(c: seq<nat>, m: nat)
    requires m in c && forall i :: 0 <= i < |c| ==> c[i] <= m
    ensures MaxOf(c) == m
  {}

  lemma MinIs(c: seq<nat>, m: nat)
    requires m in c && forall i :: 0 <= i < |c| ==> m <= c[i]
    ensures MinOf(c) == m
  {}

  /** One allocation: the most used count moves only when all counts are equal, the least never falls. */
  lemma BumpBounds(c: seq<nat>)
    requires c != []
    ensures MinOf(c) <= MinOf(Bump(c)) && MaxOf(Bump(c)) == Max(MaxOf(c), MinOf(c) + 1)
  {
    hide MinOf, MaxOf, IndexOf;
    var i := Place(c);
    if MinOf(c) < MaxOf(c) {
      var j :| 0 <= j < |c| && c[j] == MaxOf(c);
      assert Bump(c)[j] == MaxOf(c);
      MaxIs(Bump(c), MaxOf(c));
    } else {
      assert Bump(c)[i] == MinOf(c) + 1;
      MaxIs(Bump(c), MinOf(c) + 1);
    }
  }

  lemma BumpGap(c: seq<nat>)
    requires c != []
    ensures Gap(Bump(c)) <= Max(Gap(c), 1)
  {
    hide MinOf, MaxOf, Bump;
    BumpBounds(c);
  }

  /** From any catalogue the gap between the most and the least used colour never exceeds max(gap, 1). */
  lemma {:induction false} GapNeverGrows(palette: Palette, used: seq<string>, n: nat)
    requires palette != [] && AllDifferent(palette)
    ensures Gap(Counts(palette, Allocated(palette, used, n))) <= Max(Gap(Counts(palette, used)), 1)
  {
    hide Gap, Counts, NextColor, AllDifferent, Bump;
    if n > 0 {
      var before := Allocated(palette, used, n - 1);
      GapNeverGrows(palette, used, n - 1);
      CountsAfter(palette, before);
      BumpGap(Counts(palette, before));
    }
  }

  function Total(c: seq<nat>): nat {
    if c == [] then 0 else Total(c[..|c| - 1]) + c[|c| - 1]
  }

  lemma {:induction false} TotalAfterBump(c: seq<nat>, i: nat)
    requires i < |c|
    ensures Total(c[i := c[i] + 1]) == Total(c) + 1
  {
    var c' := c[i := c[i] + 1];
    if i == |c| - 1 {
      assert c'[..|c| - 1] == c[..|c| - 1];
    } else {
      assert c'[..|c| - 1] == c[..|c| - 1][i := c[i] + 1];
      TotalAfterBump(c[..|c| - 1], i);
    }
  }

  lemma {:induction false} TotalBound(c: seq<nat>, m: nat)
    requires forall i :: 0 <= i < |c| ==> c[i] <= m
    ensures Total(c) <= |c| * m
    ensures Total(c) == |c| * m ==> forall i :: 0 <= i < |c| ==> c[i] == m
  {
    if c != [] {
      TotalBound(c[..|c| - 1], m);
      assert |c| * m == (|c| - 1) * m + m;
    }
  }

  /** How many objects are missing from the colours used less than the most used one. */
  function Deficit(c: seq<nat>): nat
    requires c != []
  {
    TotalBound(c, MaxOf(c));
    |c| * MaxOf(c) - Total(c)
  }

  lemma NoDeficit(c: seq<nat>)
    requires c != []
    ensures Deficit(c) == 0 <==> Gap(c) == 0
  {
    TotalBound(c, MaxOf(c));
    if Gap(c) == 0 { AllEqual(c, MaxOf(c)); }
  }

  lemma {:induction false} AllEqual(c: seq<nat>, m: nat)
    requires forall i :: 0 <= i < |c| ==> c[i] == m
    ensures Total(c) == |c| * m
  {
    if c != [] {
      AllEqual(c[..|c| - 1], m);
      assert |c| * m == (|c| - 1) * m + m;
    }
  }

  /** While some colour is behind, an allocation fills exactly one place of the deficit. */
  lemma BumpFills(c: seq<nat>)
    requires c != [] && Gap(c) > 0
    ensures Deficit(Bump(c)) == Deficit(c) - 1
  {
    hide MinOf, MaxOf, Total, IndexOf;
    BumpBounds(c);
    TotalAfterBump(c, Place(c));
  }

  /** So the catalogue is balanced, and stays so, once the deficit has been allocated. */
  lemma {:induction false} BecomesBalanced(palette: Palette, used: seq<string>, n: nat)
    requires palette != [] && AllDifferent(palette)
    ensures var c, c' := Counts(palette, used), Counts(palette, Allocated(palette, used, n));
      && (n >= Deficit(c) ==> Gap(c') <= 1)
      && (n <= Deficit(c) ==> Deficit(c') == Deficit(c) - n)
  {
    hide Gap, Deficit, Counts, NextColor, AllDifferent, Bump;
    NoDeficit(Counts(palette, used));
    if n > 0 {
      var before := Allocated(palette, used, n - 1);
      BecomesBalanced(palette, used, n - 1);
      CountsAfter(palette, before);
      BumpGap(Counts(palette, before));
      NoDeficit(Counts(palette, before));
      if Gap(Counts(palette, before)) > 0 { BumpFills(Counts(palette, before)); }
      NoDeficit(Bump(Counts(palette, before)));
    }
  }

  // ---------------------------------------------------------------- the palette itself

  const PALETTE: Palette := [
    "#ff2d55", "#0a84ff", "#ffd60a", "#30d158", "#bf5af2", "#ff9f0a",
    "#64d2ff", "#ff375f", "#a3e635", "#f472b6", "#2dd4bf", "#fb923c"
  ]

  lemma PaletteIsDistinct()
    ensures |PALETTE| == 12 && AllDifferent(PALETTE)
  {}

  predicate HexDigit(c: char) {
    '0' <= c <= '9' || 'a' <= c <= 'f'
  }

  /** A hash and six lower-case hexadecimal digits. */
  predicate HexColor(color: string) {
    |color| == 7 && color[0] == '#' && forall i :: 1 <= i < 7 ==> HexDigit(color[i])
  }

  /** A new object's colour is always in the stored form. */
  lemma NextColorIsHex(used: seq<string>)
    ensures HexColor(NextColor(PALETTE, used))
  {
    PaletteIsHex();
    hide PALETTE;
    PaletteIsDistinct();
    var i := Place(Counts(PALETTE, used));
  }

  lemma PaletteIsHex()
    ensures forall i :: 0 <= i < |PALETTE| ==> HexColor(PALETTE[i])
  {}

  /** The first twelve objects of a tenant get the twelve colours in order, the next twelve again. */
  lemma ObjectColors(n: nat, k: nat)
    requires k < n
    ensures |Allocated(PALETTE, [], n)| == n && Allocated(PALETTE, [], n)[k] == PALETTE[k % 12]
  {
    hide PALETTE;
    PaletteIsDistinct();
    ColorsCycle(PALETTE, [], n, k);
  }
}
