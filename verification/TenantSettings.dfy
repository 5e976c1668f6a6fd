/**
 * Tenant parameters: platform defaults overlaid by the tenant's stored rows. The overlay and its
 * repair are proved for any catalogue and any family of cross-field rules over disjoint keys.
 */
module TenantSettings {
  import opened Prelude

  /** A stored JSON value; Other is anything that is not an integer number. */
  datatype Value = Whole(n: int) | Other

  datatype SettingRow = SettingRow(key: string, value: Value)

  /** One parameter: the values its schema accepts and the platform default. */
  datatype Parameter = Parameter(min: int, max: int, initial: int)

  type Catalogue = map<string, Parameter>

  type Settings = map<string, int>

  datatype Resolved = Resolved(settings: Settings, overrides: Settings, invalid: seq<string>)

  /** keys fall back together when the rule is broken; the problem is reported on one of them. */
  datatype Rule = Rule(report: string, keys: seq<string>, holds: Settings -> bool)

  const PREFIX := "tenant."

  function RowKey(name: string): string {
    PREFIX + name
  }

  /** The parameter a row belongs to, if it has the prefix and a known name. */
  function NameOf(c: Catalogue, key: string): Option<string> {
    if |key| >= |PREFIX| && key[..|PREFIX|] == PREFIX && key[|PREFIX|..] in c then Some(key[|PREFIX|..]) else None
  }

  predicate InRange(p: Parameter, n: int) {
    p.min <= n <= p.max
  }

  function Parse(p: Parameter, v: Value): Option<int> {
    if v.Whole? && InRange(p, v.n) then Some(v.n) else None
  }

  /** The row stores value n for parameter k. */
  predicate Stores(c: Catalogue, row: SettingRow, k: string, n: int) {
    k in c && row == SettingRow("tenant." + k, Whole(n)) && c[k].min <= n <= c[k].max
  }

  /** The row names parameter k but its value fails validation. */
  predicate Fails(c: Catalogue, row: SettingRow, k: string) {
    k in c && row.key == "tenant." + k && !(row.value.Whole? && c[k].min <= row.value.n <= c[k].max)
  }

  lemma NameOfRowKey(c: Catalogue, key: string, k: string)
    ensures NameOf(c, key) == Some(k) <==> k in c && key == RowKey(k)
  {
    if |key| >= |PREFIX| && key[..|PREFIX|] == PREFIX { assert key == PREFIX + key[|PREFIX|..]; }
    assert RowKey(k)[..|PREFIX|] == PREFIX && RowKey(k)[|PREFIX|..] == k;
  }

  // ---------------------------------------------------------------- specification

  /** What one row adds to the overrides and to the refused keys. */
  function StoreOne(c: Catalogue, before: Settings, row: SettingRow): Settings {
    var name := NameOf(c, row.key);
    if name.Some? && Parse(c[name.value], row.value).Some? then before[name.value := row.value.n] else before
  }

  function RefuseOne(c: Catalogue, before: seq<string>, row: SettingRow): seq<string> {
    var name := NameOf(c, row.key);
    if name.Some? && Parse(c[name.value], row.value).None? then before + [name.value] else before
  }

  function Stored(c: Catalogue, rows: seq<SettingRow>): Settings {
    if rows == [] then map[] else StoreOne(c, Stored(c, rows[..|rows| - 1]), rows[|rows| - 1])
  }

  function Refused(c: Catalogue, rows: seq<SettingRow>): seq<string> {
    if rows == [] then [] else RefuseOne(c, Refused(c, rows[..|rows| - 1]), rows[|rows| - 1])
  }

  /** The keys of the broken rules, rule by rule. */
  function Broken(rules: seq<Rule>, settings: Settings): seq<string> {
    if |rules| == 0 then [] else
      Broken(rules[..|rules| - 1], settings) + (if rules[|rules| - 1].holds(settings) then [] else rules[|rules| - 1].keys)
  }

  /** First occurrences, in order: the elements of a JavaScript Set filled from the sequence. */
  function Uniques(s: seq<string>): seq<string> {
    if s == [] then [] else
      var u := Uniques(s[..|s| - 1]);
      if s[|s| - 1] in u then u else u + [s[|s| - 1]]
  }

  function Elements(s: seq<string>): set<string> {
    set k | k in s
  }

  function Resolution(c: Catalogue, rules: seq<Rule>, defaults: Settings, rows: seq<SettingRow>): Resolved {
    var stored := Stored(c, rows);
    var broken := Broken(rules, defaults + stored);
    if broken == [] then Resolved(defaults + stored, stored, Refused(c, rows))
    else Resolved(defaults + (stored - Elements(broken)), stored - Elements(broken), Uniques(Refused(c, rows) + broken))
  }

  /** What the type checker guarantees: defaults for exactly the catalogue, rules over its keys. */
  predicate Typed(c: Catalogue, rules: seq<Rule>, defaults: Settings) {
    defaults.Keys == c.Keys && forall i, k :: 0 <= i < |rules| && k in rules[i].keys ==> k in c
  }

  // ---------------------------------------------------------------- the program

  /** Filling a Set from a list keeps the first occurrence of each element. */
  method Distinct(s: seq<string>) returns (r: seq<string>)
    ensures r == Uniques(s)
  {
    r := [];
    for i := 0 to |s|
      invariant r == Uniques(s[..i])
    {
      assert s[..i + 1][..i] == s[..i];
      if s[i] !in r {
        r := r + [s[i]];
      }
    }
    assert s[..|s|] == s;
  }

  method BrokenKeys(rules: seq<Rule>, settings: Settings) returns (r: seq<string>)
    ensures r == Broken(rules, settings)
  {
    r := [];
    for i := 0 to |rules|
      invariant r == Broken(rules[..i], settings)
    {
      assert rules[..i + 1][..i] == rules[..i];
      if !rules[i].holds(settings) {
        r := r + rules[i].keys;
      }
    }
    assert rules[..|rules|] == rules;
  }

  /** The settings as given if every rule holds, else without the overrides of any broken rule's keys. */
  method WithConsistentPairs(rules: seq<Rule>, defaults: Settings, resolved: Resolved) returns (r: Resolved)
    requires resolved.settings == defaults + resolved.overrides
    requires forall k :: k in Broken(rules, resolved.settings) ==> k in defaults
    ensures var broken := Broken(rules, resolved.settings);
      r == if broken == [] then resolved
           else Resolved(defaults + (resolved.overrides - Elements(broken)), resolved.overrides - Elements(broken),
                         Uniques(resolved.invalid + broken))
  {
    hide Uniques, Elements;
    var broken := BrokenKeys(rules, resolved.settings);
    var reset := Distinct(broken);
    UniquesKeepElements(broken);
    if |reset| == 0 {
      return resolved;
    }
    assert reset[0] in broken;
    var settings, overrides := resolved.settings, resolved.overrides;
    var invalid := Distinct(resolved.invalid);
    assert resolved.invalid + reset[..0] == resolved.invalid;
    NothingReset(resolved.overrides, reset);
    for j := 0 to |reset|
      invariant overrides == resolved.overrides - Elements(reset[..j])
      invariant settings == defaults + overrides
      invariant invalid == Uniques(resolved.invalid + reset[..j])
    {
      var key := reset[j];
      assert key in broken;
      ResetOne(defaults, resolved.overrides, reset, j);
      OneMoreUnique(resolved.invalid, reset, j);
      settings := settings[key := defaults[key]];
      overrides := overrides - {key};
      if key !in invalid {
        invalid := invalid + [key];
      }
    }
    assert reset[..|reset|] == reset;
    SameElements(reset, broken);
    UniquesOfUniques(resolved.invalid, broken);
    r := Resolved(settings, overrides, invalid);
  }

  /** One pass over the rows and one repair compute the resolution. */
  method ResolveTenantSettings(c: Catalogue, rules: seq<Rule>, defaults: Settings, rows: seq<SettingRow>) returns (r: Resolved)
    requires Typed(c, rules, defaults)
    ensures r == Resolution(c, rules, defaults, rows)
    ensures Resolves(c, rules, defaults, rows, r)
  {
    hide Resolves;
    ResolutionMeans(c, rules, defaults, rows);
    var settings, overrides, invalid: seq<string> := defaults, map[], [];
    for i := 0 to |rows|
      invariant overrides == Stored(c, rows[..i]) && settings == defaults + overrides && invalid == Refused(c, rows[..i])
    {
      assert rows[..i + 1][..i] == rows[..i];
      var row := rows[i];
      var name := NameOf(c, row.key);
      if name.Some? {
        var parsed := Parse(c[name.value], row.value);
        if parsed.None? {
          invalid := invalid + [name.value];
        } else {
          settings := settings[name.value := parsed.value];
          overrides := overrides[name.value := parsed.value];
        }
      }
    }
    assert rows[..|rows|] == rows;
    forall k | k in Broken(rules, settings) ensures k in defaults { BrokenKeysOf(rules, settings, k); }
    r := WithConsistentPairs(rules, defaults, Resolved(settings, overrides, invalid));
  }

  // ---------------------------------------------------------------- what the resolution means

  /** The value of the last valid row of a parameter. */
  predicate LastStored(c: Catalogue, rows: seq<SettingRow>, k: string, n: int) {
    exists i :: 0 <= i < |rows| && LastStore(c, rows, i, k, n)
  }

  predicate SomeFails(c: Catalogue, rows: seq<SettingRow>, k: string) {
    exists i :: 0 <= i < |rows| && Fails(c, rows[i], k)
  }

  /** A rule that these settings break names the parameter. */
  predicate Resets(rules: seq<Rule>, settings: Settings, k: string) {
    exists i :: 0 <= i < |rules| && !rules[i].holds(settings) && k in rules[i].keys
  }

  /** One entry for each failing row, in the order of the rows; at says where each comes from. */
  ghost predicate ReportsAt(c: Catalogue, rows: seq<SettingRow>, reported: seq<string>, at: seq<nat>) {
    && |at| == |reported|
    && (forall m :: 0 <= m < |at| ==> at[m] < |rows| && Fails(c, rows[at[m]], reported[m]))
    && (forall m, n :: 0 <= m < n < |at| ==> at[m] < at[n])
    && forall i, k :: 0 <= i < |rows| && Fails(c, rows[i], k) ==> i in at
  }

  ghost predicate ReportsInOrder(c: Catalogue, rows: seq<SettingRow>, reported: seq<string>) {
    exists at :: ReportsAt(c, rows, reported, at)
  }

  /** The elements of the second list, once each, in the order of their first occurrences. */
  ghost predicate Firsts(u: seq<string>, s: seq<string>) {
    && (forall k :: k in u <==> k in s)
    && forall i, j :: 0 <= i < j < |u| ==> ComesFirst(s, u[i], u[j])
  }

  /** The first text occurs before any occurrence of the second. */
  predicate ComesFirst(s: seq<string>, a: string, b: string) {
    exists p :: 0 <= p < |s| && s[p] == a && forall q :: 0 <= q <= p ==> s[q] != b
  }

  lemma {:induction false} RefusedInOrder(c: Catalogue, rows: seq<SettingRow>) returns (at: seq<nat>)
    ensures ReportsAt(c, rows, Refused(c, rows), at)
  {
    if rows == [] {
      at := [];
    } else {
      var rest, row := rows[..|rows| - 1], rows[|rows| - 1];
      at := RefusedInOrder(c, rest);
      var name := NameOf(c, row.key);
      forall k ensures Fails(c, row, k) <==> name == Some(k) && Parse(c[k], row.value).None? { StoresOrFails(c, row, k); }
      ReportsLonger(c, rest, row, rows, Refused(c, rest), at);
      if name.Some? && Parse(c[name.value], row.value).None? {
        at := at + [|rest|];
      }
    }
  }

  lemma ReportsLonger(c: Catalogue, rest: seq<SettingRow>, row: SettingRow, rows: seq<SettingRow>, reported: seq<string>, at: seq<nat>)
    requires rows == rest + [row] && ReportsAt(c, rest, reported, at)
    ensures (forall k :: !Fails(c, row, k)) ==> ReportsAt(c, rows, reported, at)
    ensures forall k :: Fails(c, row, k) ==> ReportsAt(c, rows, reported + [k], at + [|rest|])
  {
    hide Fails;
    forall i, k | 0 <= i < |rows| && Fails(c, rows[i], k) ensures i in at || i == |rest| {
      if i < |rest| { assert rest[i] == rows[i]; }
    }
    assert |rest| in at + [|rest|] && forall i :: i in at ==> i in at + [|rest|] by {
      assert (at + [|rest|])[|at|] == |rest|;
    }
  }

  lemma {:induction false} UniquesAreFirsts(s: seq<string>)
    ensures Firsts(Uniques(s), s)
  {
    UniquesKeepElements(s);
    if s != [] {
      var rest, last := s[..|s| - 1], s[|s| - 1];
      UniquesAreFirsts(rest);
      UniquesKeepElements(rest);
      var u, v := Uniques(rest), Uniques(s);
      forall i, j | 0 <= i < j < |v| ensures ComesFirst(s, v[i], v[j]) {
        if j < |u| {
          FirstStays(rest, last, s, u[i], u[j]);
        } else {
          assert v[i] in rest && last !in rest;
          var p :| 0 <= p < |rest| && rest[p] == v[i];
          assert s[p] == v[i];
        }
      }
    }
  }

  lemma FirstStays(rest: seq<string>, last: string, s: seq<string>, a: string, b: string)
    requires s == rest + [last] && ComesFirst(rest, a, b)
    ensures ComesFirst(s, a, b)
  {
    var p :| 0 <= p < |rest| && rest[p] == a && forall q :: 0 <= q <= p ==> rest[q] != b;
    assert s[p] == a && forall q :: 0 <= q <= p ==> s[q] == rest[q];
  }

  ghost predicate KeepsAll(rules: seq<Rule>, settings: Settings) {
    forall k :: !Resets(rules, settings, k)
  }

  /**
   * Values, overrides and reports, by the rows and rules that cause them: every parameter has its
   * override, if any, or its default; an override is the value of the last valid row of its key,
   * unless a rule that the stored values break resets it; a key is reported exactly when a row of it
   * fails validation or such a rule names it, once per failing row in the order of the rows, and
   * after a repair once, failing rows first.
   */
  ghost predicate Resolves(c: Catalogue, rules: seq<Rule>, defaults: Settings, rows: seq<SettingRow>, r: Resolved) {
    var overlay := defaults + Stored(c, rows);
    && (forall k :: k in r.settings <==> k in c)
    && (forall k :: k in c && k in defaults ==> r.settings[k] == if k in r.overrides then r.overrides[k] else defaults[k])
    && (forall k, n :: k in r.overrides && r.overrides[k] == n <==> LastStored(c, rows, k, n) && !Resets(rules, overlay, k))
    && (forall k :: k in r.invalid <==> SomeFails(c, rows, k) || Resets(rules, overlay, k))
    && (KeepsAll(rules, overlay) ==> ReportsInOrder(c, rows, r.invalid))
    && (!KeepsAll(rules, overlay) ==> exists refused :: ReportsInOrder(c, rows, refused) && Firsts(r.invalid, refused + Broken(rules, overlay)))
  }

  lemma ResetMeans(rules: seq<Rule>, settings: Settings)
    ensures forall k :: k in Broken(rules, settings) <==> Resets(rules, settings, k)
    ensures Broken(rules, settings) == [] <==> KeepsAll(rules, settings)
  {
    hide Broken, Resets;
    forall k ensures k in Broken(rules, settings) <==> Resets(rules, settings, k) { ResetMeansAt(rules, settings, k); }
    if Broken(rules, settings) != [] { assert Broken(rules, settings)[0] in Broken(rules, settings); }
  }

  lemma ResetMeansAt(rules: seq<Rule>, settings: Settings, k: string)
    ensures k in Broken(rules, settings) <==> Resets(rules, settings, k)
  {
    BrokenKeysOf(rules, settings, k);
  }

  lemma ReportsMean(c: Catalogue, rules: seq<Rule>, defaults: Settings, rows: seq<SettingRow>)
    ensures var r, overlay := Resolution(c, rules, defaults, rows), defaults + Stored(c, rows);
      && (forall k :: k in r.invalid <==> SomeFails(c, rows, k) || Resets(rules, overlay, k))
      && (KeepsAll(rules, overlay) ==> ReportsInOrder(c, rows, r.invalid))
      && (!KeepsAll(rules, overlay) ==> exists refused :: ReportsInOrder(c, rows, refused) && Firsts(r.invalid, refused + Broken(rules, overlay)))
  {
    hide Stored, Refused, Broken, Resets, KeepsAll, SomeFails, Uniques, ReportsAt, Firsts;
    var overlay := defaults + Stored(c, rows);
    ResetMeans(rules, overlay);
    var at := RefusedInOrder(c, rows);
    assert ReportsInOrder(c, rows, Refused(c, rows));
    UniquesAreFirsts(Refused(c, rows) + Broken(rules, overlay));
    UniquesKeepElements(Refused(c, rows) + Broken(rules, overlay));
    forall k ensures k in Refused(c, rows) <==> SomeFails(c, rows, k) { RefusedMeans(c, rows, k); }
  }

  /** The specified resolution is such a resolution. */
  lemma ResolutionMeans(c: Catalogue, rules: seq<Rule>, defaults: Settings, rows: seq<SettingRow>)
    requires Typed(c, rules, defaults)
    ensures Resolves(c, rules, defaults, rows, Resolution(c, rules, defaults, rows))
  {
    hide Stored, Refused, Broken, Resets, LastStored, KeepsAll, SomeFails, Uniques, ReportsInOrder, Firsts;
    var overlay := defaults + Stored(c, rows);
    IsOverlay(c, rules, defaults, rows);
    ReportsMean(c, rules, defaults, rows);
    ResetMeans(rules, overlay);
    forall k, n ensures k in Stored(c, rows) && Stored(c, rows)[k] == n <==> LastStored(c, rows, k, n) { StoredMeans(c, rows, k, n); }
  }

  lemma RefusedMeans(c: Catalogue, rows: seq<SettingRow>, k: string)
    ensures k in Refused(c, rows) <==> SomeFails(c, rows, k)
  {
    RefusedKeys(c, rows, k);
  }

  lemma StoredMeans(c: Catalogue, rows: seq<SettingRow>, k: string, n: int)
    ensures k in Stored(c, rows) && Stored(c, rows)[k] == n <==> LastStored(c, rows, k, n)
  {
    LastValidRowWins(c, rows, k, n);
  }

  // ---------------------------------------------------------------- sets and rules

  lemma SameElements(a: seq<string>, b: seq<string>)
    requires forall k :: k in a <==> k in b
    ensures Elements(a) == Elements(b)
  {}

  lemma NothingReset(overrides: Settings, reset: seq<string>)
    ensures overrides - Elements(reset[..0]) == overrides
  {}

  lemma ResetOne(defaults: Settings, overrides: Settings, reset: seq<string>, j: nat)
    requires j < |reset| && reset[j] in defaults
    ensures overrides - Elements(reset[..j]) - {reset[j]} == overrides - Elements(reset[..j + 1])
    ensures (defaults + (overrides - Elements(reset[..j])))[reset[j] := defaults[reset[j]]] == defaults + (overrides - Elements(reset[..j + 1]))
  {
    assert Elements(reset[..j + 1]) == Elements(reset[..j]) + {reset[j]};
  }

  lemma OneMoreUnique(seen: seq<string>, reset: seq<string>, j: nat)
    requires j < |reset|
    ensures var u := Uniques(seen + reset[..j]);
      Uniques(seen + reset[..j + 1]) == if reset[j] in u then u else u + [reset[j]]
  {
    var longer := seen + reset[..j + 1];
    assert longer[..|longer| - 1] == seen + reset[..j] && longer[|longer| - 1] == reset[j];
  }

  lemma {:induction false} UniquesKeepElements(s: seq<string>)
    ensures forall k :: k in Uniques(s) <==> k in s
    ensures Uniques(s) == [] <==> s == []
  {
    if s != [] {
      UniquesKeepElements(s[..|s| - 1]);
      assert s == s[..|s| - 1] + [s[|s| - 1]];
    }
  }

  lemma {:induction false} UniquesAreDistinct(s: seq<string>)
    ensures forall i, j :: 0 <= i < j < |Uniques(s)| ==> Uniques(s)[i] != Uniques(s)[j]
  {
    if s != [] { UniquesAreDistinct(s[..|s| - 1]); }
  }

  /** Adding a Set's elements adds what the list it was filled from would add. */
  lemma {:induction false} UniquesOfUniques(a: seq<string>, b: seq<string>)
    ensures Uniques(a + Uniques(b)) == Uniques(a + b)
  {
    if b == [] {
      assert a + Uniques(b) == a + b;
    } else {
      var rest, last := b[..|b| - 1], b[|b| - 1];
      UniquesOfUniques(a, rest);
      assert (a + b)[..|a + b| - 1] == a + rest;
      UniquesKeepElements(rest);
      UniquesKeepElements(a + rest);
      if last !in Uniques(rest) {
        assert a + Uniques(b) == (a + Uniques(rest)) + [last];
        assert (a + Uniques(b))[..|a + Uniques(b)| - 1] == a + Uniques(rest);
      }
    }
  }

  lemma {:induction false} BrokenKeysOf(rules: seq<Rule>, settings: Settings, k: string)
    ensures k in Broken(rules, settings) <==> exists i :: 0 <= i < |rules| && !rules[i].holds(settings) && k in rules[i].keys
  {
    if |rules| > 0 {
      var rest := rules[..|rules| - 1];
      BrokenKeysOf(rest, settings, k);
      if exists i :: 0 <= i < |rest| && !rest[i].holds(settings) && k in rest[i].keys {
        var i :| 0 <= i < |rest| && !rest[i].holds(settings) && k in rest[i].keys;
        assert rules[i] == rest[i];
      }
      if exists i :: 0 <= i < |rules| && !rules[i].holds(settings) && k in rules[i].keys {
        var i :| 0 <= i < |rules| && !rules[i].holds(settings) && k in rules[i].keys;
        if i < |rest| { assert rest[i] == rules[i]; }
      }
    }
  }

  predicate Satisfies(rules: seq<Rule>, settings: Settings) {
    forall i :: 0 <= i < |rules| ==> rules[i].holds(settings)
  }

  /** The problems a settings form reports before a write is accepted. */
  function Problems(rules: seq<Rule>, settings: Settings): seq<string> {
    if |rules| == 0 then [] else
      Problems(rules[..|rules| - 1], settings) + (if rules[|rules| - 1].holds(settings) then [] else [rules[|rules| - 1].report])
  }

  /** The form reports a key exactly when a rule with that key to report is broken. */
  lemma {:induction false} ReportedProblems(rules: seq<Rule>, settings: Settings, k: string)
    ensures k in Problems(rules, settings) <==> exists i :: 0 <= i < |rules| && !rules[i].holds(settings) && rules[i].report == k
  {
    if |rules| > 0 {
      var rest, last := rules[..|rules| - 1], rules[|rules| - 1];
      ReportedProblems(rest, settings, k);
      if i :| 0 <= i < |rest| && !rest[i].holds(settings) && rest[i].report == k { assert rules[i] == rest[i]; }
      if i :| 0 <= i < |rules| && !rules[i].holds(settings) && rules[i].report == k {
        if i < |rest| { assert rest[i] == rules[i]; }
      }
    }
  }

  lemma {:induction false} NoProblems(rules: seq<Rule>, settings: Settings)
    ensures Problems(rules, settings) == [] <==> Satisfies(rules, settings)
  {
    if |rules| > 0 {
      var rest := rules[..|rules| - 1];
      NoProblems(rest, settings);
      if Satisfies(rest, settings) && rules[|rules| - 1].holds(settings) {
        forall i | 0 <= i < |rules| ensures rules[i].holds(settings) { if i < |rest| { assert rest[i].holds(settings); } }
      }
      if Satisfies(rules, settings) {
        forall i | 0 <= i < |rest| ensures rest[i].holds(settings) { assert rules[i].holds(settings); }
      }
    }
  }

  predicate SameAt(keys: seq<string>, a: Settings, b: Settings) {
    forall k :: k in keys ==> k in a && k in b && a[k] == b[k]
  }

  /** The rule's verdict depends on its own keys only. */
  ghost predicate ReadsOwnKeys(rule: Rule) {
    forall a, b :: SameAt(rule.keys, a, b) ==> rule.holds(a) == rule.holds(b)
  }

  /** No key belongs to two rules. */
  predicate Apart(rules: seq<Rule>) {
    forall i, j, k :: 0 <= i < |rules| && 0 <= j < |rules| && k in rules[i].keys && k in rules[j].keys ==> i == j
  }

  ghost predicate Separate(rules: seq<Rule>) {
    Apart(rules) && forall i :: 0 <= i < |rules| ==> ReadsOwnKeys(rules[i])
  }

  predicate AllInRange(c: Catalogue, settings: Settings) {
    forall k :: k in settings ==> k in c && InRange(c[k], settings[k])
  }

  // ---------------------------------------------------------------- what the overlay is

  lemma StoresOrFails(c: Catalogue, row: SettingRow, k: string)
    ensures NameOf(c, row.key) == Some(k) ==> (Parse(c[k], row.value).Some? ==> Stores(c, row, k, row.value.n)) && (Parse(c[k], row.value).None? <==> Fails(c, row, k))
    ensures forall n :: Stores(c, row, k, n) ==> NameOf(c, row.key) == Some(k) && Parse(c[k], row.value) == Some(n)
    ensures Fails(c, row, k) ==> NameOf(c, row.key) == Some(k) && Parse(c[k], row.value).None?
  {
    NameOfRowKey(c, row.key, k);
  }

  /** Row i stores k, and no later row stores it again. */
  predicate LastStore(c: Catalogue, rows: seq<SettingRow>, i: nat, k: string, n: int)
    requires i < |rows|
  {
    Stores(c, rows[i], k, n) && forall j :: i < j < |rows| ==> !StoresSome(c, rows[j], k)
  }

  predicate StoresSome(c: Catalogue, row: SettingRow, k: string) {
    row.value.Whole? && Stores(c, row, k, row.value.n)
  }

  /** An override is the value of the last valid row of its key; every such value is in range. */
  lemma {:induction false} LastValidRowWins(c: Catalogue, rows: seq<SettingRow>, k: string, n: int)
    ensures k in Stored(c, rows) && Stored(c, rows)[k] == n <==> exists i :: 0 <= i < |rows| && LastStore(c, rows, i, k, n)
    ensures k in Stored(c, rows) ==> k in c && InRange(c[k], Stored(c, rows)[k])
  {
    if rows != [] {
      var rest, row := rows[..|rows| - 1], rows[|rows| - 1];
      LastValidRowWins(c, rest, k, n);
      StoresOrFails(c, row, k);
      if StoresSome(c, row, k) {
        if row.value.n == n { assert LastStore(c, rows, |rows| - 1, k, n); }
      } else {
        forall i | 0 <= i < |rest| ensures LastStore(c, rest, i, k, n) <==> LastStore(c, rows, i, k, n) {
          LastStoreLonger(c, rest, row, rows, i, k, n);
        }
      }
    }
  }

  lemma LastStoreLonger(c: Catalogue, rest: seq<SettingRow>, row: SettingRow, rows: seq<SettingRow>, i: nat, k: string, n: int)
    requires rows == rest + [row] && i < |rest| && !StoresSome(c, row, k)
    ensures LastStore(c, rest, i, k, n) <==> LastStore(c, rows, i, k, n)
  {
    if LastStore(c, rows, i, k, n) {
      forall j | i < j < |rest| ensures !StoresSome(c, rest[j], k) { assert rows[j] == rest[j]; }
    }
  }

  /** A key is refused when some row of it fails validation. */
  lemma {:induction false} RefusedKeys(c: Catalogue, rows: seq<SettingRow>, k: string)
    ensures k in Refused(c, rows) <==> exists i :: 0 <= i < |rows| && Fails(c, rows[i], k)
  {
    if rows != [] {
      var rest, row := rows[..|rows| - 1], rows[|rows| - 1];
      RefusedKeys(c, rest, k);
      StoresOrFails(c, row, k);
      if exists i :: 0 <= i < |rest| && Fails(c, rest[i], k) {
        var i :| 0 <= i < |rest| && Fails(c, rest[i], k);
        assert rows[i] == rest[i];
      }
      if exists i :: 0 <= i < |rows| && Fails(c, rows[i], k) {
        var i :| 0 <= i < |rows| && Fails(c, rows[i], k);
        if i < |rest| { assert rest[i] == rows[i]; } else { assert NameOf(c, row.key) == Some(k); }
      }
    }
  }

  // ---------------------------------------------------------------- a safe overlay

  /** The result is the defaults overlaid by the returned overrides, and nothing else. */
  lemma IsOverlay(c: Catalogue, rules: seq<Rule>, defaults: Settings, rows: seq<SettingRow>)
    requires Typed(c, rules, defaults)
    ensures var r := Resolution(c, rules, defaults, rows);
      r.settings == defaults + r.overrides && r.settings.Keys == c.Keys && r.overrides.Keys <= c.Keys
  {
    forall k | k in Stored(c, rows) ensures k in c { LastValidRowWins(c, rows, k, Stored(c, rows)[k]); }
  }

  /** Every value that reaches runtime is in its range. */
  lemma OverlayInRange(c: Catalogue, rules: seq<Rule>, defaults: Settings, rows: seq<SettingRow>)
    requires AllInRange(c, defaults)
    ensures AllInRange(c, Resolution(c, rules, defaults, rows).settings)
  {
    forall k | k in Stored(c, rows) ensures k in c && InRange(c[k], Stored(c, rows)[k]) {
      LastValidRowWins(c, rows, k, Stored(c, rows)[k]);
    }
  }

  lemma {:induction false} NothingBroken(rules: seq<Rule>, settings: Settings)
    requires Satisfies(rules, settings)
    ensures Broken(rules, settings) == []
  {
    if |rules| > 0 {
      var rest := rules[..|rules| - 1];
      forall i | 0 <= i < |rest| ensures rest[i].holds(settings) { assert rules[i].holds(settings); }
      NothingBroken(rest, settings);
    }
  }

  /** A rule's own keys: kept when it held, back at the defaults when it was broken. */
  lemma RepairAt(rules: seq<Rule>, defaults: Settings, stored: Settings, i: nat)
    requires i < |rules| && Apart(rules) && forall k :: k in rules[i].keys ==> k in defaults
    ensures var overlay := defaults + stored;
      var repaired := defaults + (stored - Elements(Broken(rules, overlay)));
      SameAt(rules[i].keys, repaired, if rules[i].holds(overlay) then overlay else defaults)
  {
    hide Broken, Apart;
    var overlay := defaults + stored;
    forall k | k in rules[i].keys ensures k in Broken(rules, overlay) <==> !rules[i].holds(overlay) {
      OwnKeyIsBroken(rules, overlay, i, k);
    }
  }

  lemma OwnKeyIsBroken(rules: seq<Rule>, settings: Settings, i: nat, k: string)
    requires i < |rules| && Apart(rules) && k in rules[i].keys
    ensures k in Broken(rules, settings) <==> !rules[i].holds(settings)
  {
    hide Broken;
    BrokenKeysOf(rules, settings, k);
  }

  /** Each rule holds in the result exactly when the stored values satisfied it or the defaults do. */
  lemma RuleAfterRepair(c: Catalogue, rules: seq<Rule>, defaults: Settings, rows: seq<SettingRow>, i: nat)
    requires Typed(c, rules, defaults) && Separate(rules) && i < |rules|
    ensures rules[i].holds(Resolution(c, rules, defaults, rows).settings) <==>
      rules[i].holds(defaults + Stored(c, rows)) || rules[i].holds(defaults)
  {
    var stored := Stored(c, rows);
    var overlay := defaults + stored;
    var broken := Broken(rules, overlay);
    var repaired := defaults + (stored - Elements(broken));
    RepairAt(rules, defaults, stored, i);
    assert ReadsOwnKeys(rules[i]);
    if broken == [] { assert stored - Elements(broken) == stored; }
  }

  /** The result has no problems for any stored rows if and only if the defaults have none. */
  lemma NoProblemsForAnyRows(c: Catalogue, rules: seq<Rule>, defaults: Settings)
    requires Typed(c, rules, defaults) && Separate(rules)
    ensures (forall rows :: Problems(rules, Resolution(c, rules, defaults, rows).settings) == []) <==> Problems(rules, defaults) == []
  {
    hide Problems, Separate, Typed;
    NoProblems(rules, defaults);
    if Satisfies(rules, defaults) {
      forall rows ensures Problems(rules, Resolution(c, rules, defaults, rows).settings) == [] {
        ResultSatisfies(c, rules, defaults, rows);
        NoProblems(rules, Resolution(c, rules, defaults, rows).settings);
      }
    } else {
      EmptyRows(c, rules, defaults);
      NoProblems(rules, Resolution(c, rules, defaults, []).settings);
    }
  }

  lemma ResultSatisfies(c: Catalogue, rules: seq<Rule>, defaults: Settings, rows: seq<SettingRow>)
    requires Typed(c, rules, defaults) && Separate(rules) && Satisfies(rules, defaults)
    ensures Satisfies(rules, Resolution(c, rules, defaults, rows).settings)
  {
    hide Separate, Resolution;
    forall i | 0 <= i < |rules| ensures rules[i].holds(Resolution(c, rules, defaults, rows).settings) {
      RuleAfterRepair(c, rules, defaults, rows, i);
    }
  }

  lemma EmptyRows(c: Catalogue, rules: seq<Rule>, defaults: Settings)
    requires Typed(c, rules, defaults) && Separate(rules) && !Satisfies(rules, defaults)
    ensures !Satisfies(rules, Resolution(c, rules, defaults, []).settings)
  {
    hide Separate, Resolution;
    assert Stored(c, []) == map[] && defaults + map[] == defaults;
    var i :| 0 <= i < |rules| && !rules[i].holds(defaults);
    RuleAfterRepair(c, rules, defaults, [], i);
  }

  // ---------------------------------------------------------------- normal form

  /** Rows for these keys of the overrides, in this order. */
  function AsRows(overrides: Settings, order: seq<string>): seq<SettingRow>
    requires forall k :: k in order ==> k in overrides
  {
    seq(|order|, i requires 0 <= i < |order| => SettingRow(RowKey(order[i]), Whole(overrides[order[i]])))
  }

  lemma {:induction false} RowsStoreThem(c: Catalogue, overrides: Settings, order: seq<string>)
    requires forall k :: k in order ==> k in overrides
    requires AllInRange(c, overrides)
    ensures forall k :: k in Stored(c, AsRows(overrides, order)) <==> k in order
    ensures forall k :: k in order ==> Stored(c, AsRows(overrides, order))[k] == overrides[k]
    ensures Refused(c, AsRows(overrides, order)) == []
  {
    if order != [] {
      var rest, last := order[..|order| - 1], order[|order| - 1];
      RowsStoreThem(c, overrides, rest);
      assert AsRows(overrides, order)[..|order| - 1] == AsRows(overrides, rest);
      NameOfRowKey(c, RowKey(last), last);
      assert order == rest + [last];
    }
  }

  /**
   * Writing the returned overrides back as rows, in any order, and resolving again gives the same
   * settings and the same overrides, with nothing invalid.
   */
  lemma NormalForm(c: Catalogue, rules: seq<Rule>, defaults: Settings, rows: seq<SettingRow>, order: seq<string>)
    requires Typed(c, rules, defaults) && Separate(rules) && AllInRange(c, defaults) && Satisfies(rules, defaults)
    requires forall k :: k in order <==> k in Resolution(c, rules, defaults, rows).overrides
    ensures var r := Resolution(c, rules, defaults, rows);
      Resolution(c, rules, defaults, AsRows(r.overrides, order)) == Resolved(r.settings, r.overrides, [])
  {
    hide Separate, Stored, Refused, Problems;
    var r := Resolution(c, rules, defaults, rows);
    IsOverlay(c, rules, defaults, rows);
    OverlayInRange(c, rules, defaults, rows);
    forall k | k in r.overrides ensures k in c && InRange(c[k], r.overrides[k]) { assert r.settings[k] == r.overrides[k]; }
    RowsStoreThem(c, r.overrides, order);
    assert Stored(c, AsRows(r.overrides, order)) == r.overrides;
    ResultSatisfies(c, rules, defaults, rows);
    NothingBroken(rules, r.settings);
  }

  // ---------------------------------------------------------------- order and foreign rows

  predicate DistinctKeys(rows: seq<SettingRow>) {
    forall i, j :: 0 <= i < j < |rows| ==> rows[i].key != rows[j].key
  }

  lemma StoredByMembership(c: Catalogue, rows: seq<SettingRow>, k: string, n: int)
    requires DistinctKeys(rows)
    ensures k in Stored(c, rows) && Stored(c, rows)[k] == n <==> k in c && InRange(c[k], n) && SettingRow(RowKey(k), Whole(n)) in rows
  {
    hide Stored;
    LastValidRowWins(c, rows, k, n);
    if k in c && InRange(c[k], n) && SettingRow(RowKey(k), Whole(n)) in rows {
      var i :| 0 <= i < |rows| && rows[i] == SettingRow(RowKey(k), Whole(n));
      assert LastStore(c, rows, i, k, n);
    }
  }

  /** With one row per key the order of the rows does not matter. */
  lemma RowOrderIsIrrelevant(c: Catalogue, rules: seq<Rule>, defaults: Settings, a: seq<SettingRow>, b: seq<SettingRow>)
    requires DistinctKeys(a) && DistinctKeys(b) && forall row :: row in a <==> row in b
    ensures var r, s := Resolution(c, rules, defaults, a), Resolution(c, rules, defaults, b);
      r.settings == s.settings && r.overrides == s.overrides && Elements(r.invalid) == Elements(s.invalid)
  {
    hide Stored, Refused, Uniques;
    forall k, n ensures Maps(Stored(c, a), k, n) <==> Maps(Stored(c, b), k, n) {
      StoredByMembership(c, a, k, n);
      StoredByMembership(c, b, k, n);
    }
    SameMap(Stored(c, a), Stored(c, b));
    forall k ensures k in Refused(c, a) <==> k in Refused(c, b) {
      SameRefused(c, a, b, k);
      SameRefused(c, b, a, k);
    }
    var broken := Broken(rules, defaults + Stored(c, a));
    UniquesKeepElements(Refused(c, a) + broken);
    UniquesKeepElements(Refused(c, b) + broken);
  }

  predicate Maps(m: Settings, k: string, n: int) {
    k in m && m[k] == n
  }

  lemma SameMap(a: Settings, b: Settings)
    requires forall k, n :: Maps(a, k, n) <==> Maps(b, k, n)
    ensures a == b
  {
    forall k ensures k in a <==> k in b {
      if k in a { assert Maps(a, k, a[k]); }
      if k in b { assert Maps(b, k, b[k]); }
    }
    forall k | k in a ensures a[k] == b[k] { assert Maps(a, k, a[k]); }
  }

  lemma SameRefused(c: Catalogue, a: seq<SettingRow>, b: seq<SettingRow>, k: string)
    requires forall row :: row in a ==> row in b
    ensures k in Refused(c, a) ==> k in Refused(c, b)
  {
    hide Refused;
    RefusedKeys(c, a, k);
    RefusedKeys(c, b, k);
    if k in Refused(c, a) {
      var i :| 0 <= i < |a| && Fails(c, a[i], k);
      assert a[i] in b;
    }
  }

  /** The rows that have the prefix and a known name. */
  function Known(c: Catalogue, rows: seq<SettingRow>): seq<SettingRow> {
    if rows == [] then [] else
      Known(c, rows[..|rows| - 1]) + (if NameOf(c, rows[|rows| - 1].key).Some? then [rows[|rows| - 1]] else [])
  }

  lemma OneMoreRow(c: Catalogue, rows: seq<SettingRow>, row: SettingRow)
    ensures Stored(c, rows + [row]) == StoreOne(c, Stored(c, rows), row)
    ensures Refused(c, rows + [row]) == RefuseOne(c, Refused(c, rows), row)
  {
    assert (rows + [row])[..|rows|] == rows;
  }

  lemma ForeignRow(c: Catalogue, stored: Settings, refused: seq<string>, row: SettingRow)
    requires NameOf(c, row.key).None?
    ensures StoreOne(c, stored, row) == stored && RefuseOne(c, refused, row) == refused
  {}

  lemma {:induction false} KnownRowsDecide(c: Catalogue, rows: seq<SettingRow>)
    ensures Stored(c, Known(c, rows)) == Stored(c, rows) && Refused(c, Known(c, rows)) == Refused(c, rows)
  {
    hide StoreOne, RefuseOne, Stored, Refused, NameOf;
    if rows != [] {
      var rest, row := rows[..|rows| - 1], rows[|rows| - 1];
      KnownRowsDecide(c, rest);
      if NameOf(c, row.key).Some? {
        assert Known(c, rows) == Known(c, rest) + [row];
        OneMoreRow(c, Known(c, rest), row);
      } else {
        assert Known(c, rows) == Known(c, rest);
        ForeignRow(c, Stored(c, rest), Refused(c, rest), row);
      }
      OneMoreRow(c, rest, row);
      assert rows == rest + [row];
    }
  }

  /** Rows with a foreign prefix or an unknown name change nothing, whatever they hold. */
  lemma ForeignRowsAreIgnored(c: Catalogue, rules: seq<Rule>, defaults: Settings, rows: seq<SettingRow>)
    ensures Resolution(c, rules, defaults, Known(c, rows)) == Resolution(c, rules, defaults, rows)
  {
    KnownRowsDecide(c, rows);
  }

  // ---------------------------------------------------------------- the platform's own catalogue

  type SoundParameter = p: Parameter | InRange(p, p.initial) witness Parameter(0, 0, 0)

  type Parameters = map<string, SoundParameter>

  const PRESENCE: Parameters := map[
    "arriveBeforeMinutes" := Parameter(1, 720, 180),
    "departAfterMinutes" := Parameter(1, 720, 180),
    "earlyStartWindowMinutes" := Parameter(0, 240, 30),
    "graceMinutes" := Parameter(0, 120, 10)
  ]

  const SHIFT: Parameters := map[
    "overtimeThresholdMinutes" := Parameter(0, 240, 15),
    "autoCloseGraceMinutes" := Parameter(1, 720, 120),
    "shiftReminderMinutes" := Parameter(1, 720, 30)
  ]

  const BREAKS: Parameters := map[
    "breakMinutes" := Parameter(1, 120, 15),
    "mealMinutes" := Parameter(1, 180, 60),
    "serviceTimeMinutes" := Parameter(1, 180, 30)
  ]

  const INCIDENTS: Parameters := map[
    "downtimeEscalationMinutes" := Parameter(1, 240, 15),
    "incidentSlaNormalMinutes" := Parameter(0, 1440, 60),
    "incidentSlaCriticalMinutes" := Parameter(0, 1440, 30),
    "incidentSlaSafetyMinutes" := Parameter(0, 1440, 0)
  ]

  const HANDOVER: Parameters := map[
    "cleaningReminderMinutes" := Parameter(1, 240, 30),
    "handoverReviewWindowMinutes" := Parameter(1, 1440, 120),
    "appealWindowDays" := Parameter(1, 30, 3)
  ]

  const PHOTOS: Parameters := map[
    "mediaMinWidth" := Parameter(160, 4096, 640),
    "mediaMinHeight" := Parameter(120, 4096, 480),
    "mediaMinBrightness" := Parameter(0, 255, 40),
    "mediaNearDuplicateDistance" := Parameter(0, 64, 6),
    "mediaRetentionDays" := Parameter(30, 3650, 365)
  ]

  const MAINTENANCE: Parameters := map[
    "maintenanceReminderFirstDays" := Parameter(0, 60, 7),
    "maintenanceReminderSecondDays" := Parameter(0, 60, 3),
    "maintenanceReminderLastDays" := Parameter(0, 60, 1),
    "maintenanceReminderHour" := Parameter(0, 23, 9)
  ]

  const EMERGENCIES: Parameters := map[
    "emergencyAckSafetyMinutes" := Parameter(1, 60, 2),
    "emergencyAckStoppedMinutes" := Parameter(1, 240, 5),
    "emergencyAckFaultMinutes" := Parameter(1, 1440, 30),
    "emergencyEscalationGapMinutes" := Parameter(1, 240, 5)
  ]

  const KIOSK: Parameters := map[
    "qrRotationSeconds" := Parameter(15, 300, 45),
    "qrTtlSeconds" := Parameter(15, 600, 90)
  ]

  const CATALOGUE: Parameters :=
    PRESENCE + SHIFT + BREAKS + INCIDENTS + HANDOVER + PHOTOS + MAINTENANCE + EMERGENCIES + KIOSK

  function Defaults(c: Catalogue): Settings {
    map k | k in c :: c[k].initial
  }

  /** The kiosk never shows an expired code: its lifetime covers the rotation interval. */
  const QR_RULE := Rule("qrTtlSeconds", ["qrRotationSeconds", "qrTtlSeconds"], QrHolds)

  predicate QrHolds(s: Settings) {
    "qrTtlSeconds" in s && "qrRotationSeconds" in s && s["qrTtlSeconds"] >= s["qrRotationSeconds"]
  }

  lemma KioskDefaults()
    ensures "qrTtlSeconds" in KIOSK && KIOSK["qrTtlSeconds"].initial == 90
    ensures "qrRotationSeconds" in KIOSK && KIOSK["qrRotationSeconds"].initial == 45
  {}

  lemma QrDefaults()
    ensures "qrTtlSeconds" in CATALOGUE && CATALOGUE["qrTtlSeconds"].initial == 90
    ensures "qrRotationSeconds" in CATALOGUE && CATALOGUE["qrRotationSeconds"].initial == 45
  {
    hide PRESENCE, SHIFT, BREAKS, INCIDENTS, HANDOVER, PHOTOS, MAINTENANCE, EMERGENCIES, KIOSK;
    KioskDefaults();
  }

  lemma CatalogueInRange()
    ensures AllInRange(CATALOGUE, Defaults(CATALOGUE))
  {
    hide CATALOGUE;
  }

  lemma QrRuleReadsItsKeys()
    ensures Separate([QR_RULE])
  {
    forall a, b | SameAt(QR_RULE.keys, a, b) ensures QR_RULE.holds(a) == QR_RULE.holds(b) {
      assert "qrTtlSeconds" in QR_RULE.keys && "qrRotationSeconds" in QR_RULE.keys;
    }
  }

  lemma PlatformDefaultsAreSound()
    ensures Typed(CATALOGUE, [QR_RULE], Defaults(CATALOGUE)) && Separate([QR_RULE])
    ensures AllInRange(CATALOGUE, Defaults(CATALOGUE)) && Satisfies([QR_RULE], Defaults(CATALOGUE))
  {
    hide CATALOGUE, Separate, AllInRange;
    QrDefaults();
    CatalogueInRange();
    QrRuleReadsItsKeys();
  }

  /** So the platform's settings are always in range and never break the code rule. */
  lemma PlatformSettingsAreSafe(rows: seq<SettingRow>)
    ensures var r := Resolution(CATALOGUE, [QR_RULE], Defaults(CATALOGUE), rows);
      && AllInRange(CATALOGUE, r.settings) && r.settings.Keys == CATALOGUE.Keys
      && Problems([QR_RULE], r.settings) == []
  {
    hide CATALOGUE, QrHolds, Separate;
    PlatformDefaultsAreSound();
    IsOverlay(CATALOGUE, [QR_RULE], Defaults(CATALOGUE), rows);
    OverlayInRange(CATALOGUE, [QR_RULE], Defaults(CATALOGUE), rows);
    ResultSatisfies(CATALOGUE, [QR_RULE], Defaults(CATALOGUE), rows);
    NoProblems([QR_RULE], Resolution(CATALOGUE, [QR_RULE], Defaults(CATALOGUE), rows).settings);
  }
}
