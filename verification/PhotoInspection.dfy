/** Photo reviews: the identity check over regions and findings, the outcome, and the two schemas. */
module PhotoInspection {
  import opened Prelude

  const MAX_FINDING := 29
  const MAX_ANNOTATIONS := 100
  const MAX_REJECTIONS := 300
  const MAX_COMMENT := 4000
  const MAX_REGION_COMMENT := 2000
  const MAX_NAME := 100

  datatype Verdict = Violation | Allowed | Unsure

  datatype ReviewStatus = Unreviewed | Compliant | Problems | NotAssessable

  datatype NotAssessableReason = Blurry | Dark | WrongAngle | Obstructed | WrongZone | OtherReason

  /** A region; sourceRun and sourceFinding say which finding of which model run it accepts. */
  datatype Annotation = Annotation(
    id: Uuid, objectId: Option<Uuid>, objectName: Option<string>, verdict: Verdict, comment: string,
    sourceRun: Option<Uuid>, sourceFinding: Option<int>)

  /** A model finding the reviewer said no to. */
  datatype Rejection = Rejection(run: Uuid, index: int)

  datatype Review = Review(
    status: ReviewStatus, comment: string, annotations: seq<Annotation>, reason: Option<NotAssessableReason>,
    isReference: bool, rejected: seq<Rejection>)

  datatype Issue =
    | SourceMissingOrReused(annotation: nat)
    | AnnotationIdsRepeat
    | DuplicateRejection
    | AcceptedAndRejected
    | OutcomeMustBe(expected: ReviewStatus)
    | ChooseReason
    | ExplainWhy
    | OnlyCompliantReference

  /** The shape both schemas share, after trimming. Geometry is not modelled. */
  predicate Shaped(v: Review) {
    && |v.comment| <= MAX_COMMENT && |v.annotations| <= MAX_ANNOTATIONS && |v.rejected| <= MAX_REJECTIONS
    && (forall i :: 0 <= i < |v.annotations| ==> ShapedAnnotation(v.annotations[i]))
    && (forall i :: 0 <= i < |v.rejected| ==> 0 <= v.rejected[i].index <= MAX_FINDING)
  }

  predicate ShapedAnnotation(a: Annotation) {
    && (a.objectId.Some? || a.objectName.Some? || a.comment != "")
    && (a.objectName.Some? ==> 1 <= |a.objectName.value| <= MAX_NAME) && |a.comment| <= MAX_REGION_COMMENT
    && (a.sourceFinding.Some? ==> 0 <= a.sourceFinding.value <= MAX_FINDING)
  }

  // ---------------------------------------------------------------- identity keys

  function Digit(n: int): char
    requires 0 <= n < 10
  {
    '0' + n as char
  }

  function Decimal(n: int): string
    requires 0 <= n <= MAX_FINDING
  {
    if n < 10 then [Digit(n)] else [Digit(n / 10), Digit(n % 10)]
  }

  /** A template string of the run, or null, and the index. */
  function FindingKey(run: Option<Uuid>, index: int): string
    requires 0 <= index <= MAX_FINDING
  {
    (if run.Some? then run.value else "null") + ":" + Decimal(index)
  }

  lemma DecimalIsInjective(m: int, n: int)
    requires 0 <= m <= MAX_FINDING && 0 <= n <= MAX_FINDING && Decimal(m) == Decimal(n)
    ensures m == n
  {
    assert |Decimal(m)| == |Decimal(n)| && Decimal(m)[0] == Decimal(n)[0];
    if m >= 10 { assert Decimal(m)[1] == Decimal(n)[1]; }
  }

  /** Two findings share a key exactly when they are the same finding. */
  lemma KeyIsIdentity(run: Option<Uuid>, m: int, run': Option<Uuid>, n: int)
    requires 0 <= m <= MAX_FINDING && 0 <= n <= MAX_FINDING
    ensures FindingKey(run, m) == FindingKey(run', n) <==> run == run' && m == n
  {
    var a, b := FindingKey(run, m), FindingKey(run', n);
    if a == b {
      assert |Decimal(m)| <= 2 && |Decimal(n)| <= 2;
      var at := if run.Some? then 36 else 4;
      assert run.Some? == run'.Some?;
      assert a[..at] == (if run.Some? then run.value else "null") && b[..at] == (if run'.Some? then run'.value else "null");
      assert a[at + 1..] == Decimal(m) && b[at + 1..] == Decimal(n);
      DecimalIsInjective(m, n);
    }
  }

  // ---------------------------------------------------------------- the check

  function SourceKey(a: Annotation): string
    requires ShapedAnnotation(a) && a.sourceFinding.Some?
  {
    FindingKey(a.sourceRun, a.sourceFinding.value)
  }

  predicate AllShaped(annotations: seq<Annotation>) {
    forall i :: 0 <= i < |annotations| ==> ShapedAnnotation(annotations[i])
  }

  /** The keys of the sourced annotations. */
  function Sources(annotations: seq<Annotation>): set<string>
    requires AllShaped(annotations)
  {
    set i | 0 <= i < |annotations| && annotations[i].sourceFinding.Some? :: SourceKey(annotations[i])
  }

  /** Annotation i names no run, or a finding that an earlier annotation already names. */
  predicate BadSource(annotations: seq<Annotation>, i: nat)
    requires i < |annotations|
  {
    && annotations[i].sourceFinding.Some?
    && (annotations[i].sourceRun.None? || exists j :: 0 <= j < i && SameSource(annotations[j], annotations[i]))
  }

  predicate SameSource(a: Annotation, b: Annotation) {
    a.sourceFinding.Some? && a.sourceFinding == b.sourceFinding && a.sourceRun == b.sourceRun
  }

  predicate Rejects(r: Rejection, a: Annotation) {
    a.sourceFinding == Some(r.index) && a.sourceRun == Some(r.run)
  }

  function Ids(annotations: seq<Annotation>): seq<string> {
    seq(|annotations|, i requires 0 <= i < |annotations| => annotations[i].id)
  }

  function RejectionKeys(rejected: seq<Rejection>): seq<string>
    requires forall i :: 0 <= i < |rejected| ==> 0 <= rejected[i].index <= MAX_FINDING
  {
    seq(|rejected|, i requires 0 <= i < |rejected| => FindingKey(Some(rejected[i].run), rejected[i].index))
  }

  function SetOf(s: seq<string>): set<string> {
    set x | x in s
  }

  predicate Distinct<T(==)>(s: seq<T>) {
    forall i, j :: 0 <= i < j < |s| ==> s[i] != s[j]
  }

  /** A Set is as large as the list it was filled from exactly when the list has no duplicate. */
  lemma {:induction false} SetSize(s: seq<string>)
    ensures |SetOf(s)| <= |s|
    ensures |SetOf(s)| == |s| <==> Distinct(s)
  {
    if s != [] {
      var rest, last := s[..|s| - 1], s[|s| - 1];
      SetSize(rest);
      assert SetOf(s) == SetOf(rest) + {last};
      if last in rest {
        assert SetOf(s) == SetOf(rest);
        var i :| 0 <= i < |rest| && rest[i] == last;
        assert s[i] == s[|s| - 1];
      } else if Distinct(rest) {
        forall i, j | 0 <= i < j < |s| ensures s[i] != s[j] { if j < |rest| { assert rest[i] != rest[j]; } }
      } else {
        var i, j :| 0 <= i < j < |rest| && rest[i] == rest[j];
        assert s[i] == s[j];
      }
    }
  }

  /** The issues of the annotations before position n, in order. */
  function SourceIssues(annotations: seq<Annotation>, n: nat): seq<Issue>
    requires n <= |annotations|
  {
    if n == 0 then []
    else SourceIssues(annotations, n - 1) + (if BadSource(annotations, n - 1) then [SourceMissingOrReused(n - 1)] else [])
  }

  predicate IdsDistinct(annotations: seq<Annotation>) {
    forall i, j :: 0 <= i < j < |annotations| ==> annotations[i].id != annotations[j].id
  }

  predicate NoneAcceptedAndRejected(v: Review) {
    forall r, a :: r in v.rejected && a in v.annotations ==> !Rejects(r, a)
  }

  /** What the check reports, stated on findings rather than on keys and set sizes. */
  function IdentityIssues(v: Review): seq<Issue> {
    SourceIssues(v.annotations, |v.annotations|)
    + (if IdsDistinct(v.annotations) then [] else [AnnotationIdsRepeat])
    + (if Distinct(v.rejected) then [] else [DuplicateRejection])
    + (if NoneAcceptedAndRejected(v) then [] else [AcceptedAndRejected])
  }

  /** The region names no run, or the same finding of the same run as an earlier region. */
  predicate Unsourced(v: Review, n: nat) {
    && n < |v.annotations| && v.annotations[n].sourceFinding.Some?
    && (v.annotations[n].sourceRun.None?
        || exists i :: 0 <= i < n && v.annotations[i].sourceFinding == v.annotations[n].sourceFinding && v.annotations[i].sourceRun == v.annotations[n].sourceRun)
  }

  /** Rejection i is of the finding that region j accepts. */
  predicate UsedAndRejected(v: Review, i: nat, j: nat) {
    && i < |v.rejected| && j < |v.annotations|
    && v.annotations[j].sourceFinding == Some(v.rejected[i].index) && v.annotations[j].sourceRun == Some(v.rejected[i].run)
  }

  /** Which identity issues a list holds, each by what in the review it is about. */
  ghost predicate ReportsIdentity(v: Review, issues: seq<Issue>) {
    && (forall n: nat :: SourceMissingOrReused(n) in issues <==> Unsourced(v, n))
    && (AnnotationIdsRepeat in issues <==> exists i, j :: 0 <= i < j < |v.annotations| && v.annotations[i].id == v.annotations[j].id)
    && (DuplicateRejection in issues <==> exists i, j :: 0 <= i < j < |v.rejected| && v.rejected[i].run == v.rejected[j].run && v.rejected[i].index == v.rejected[j].index)
    && (AcceptedAndRejected in issues <==> exists i: nat, j: nat :: UsedAndRejected(v, i, j))
  }

  /** An issue about the identity of regions and findings. */
  predicate AboutIdentity(x: Issue) {
    x.SourceMissingOrReused? || x.AnnotationIdsRepeat? || x.DuplicateRejection? || x.AcceptedAndRejected?
  }

  lemma {:induction false} SourceIssuesMean(v: Review, n: nat)
    requires n <= |v.annotations|
    ensures forall x :: x in SourceIssues(v.annotations, n) <==> x.SourceMissingOrReused? && x.annotation < n && Unsourced(v, x.annotation)
  {
    if n > 0 { SourceIssuesMean(v, n - 1); }
  }

  lemma IdentityIssuesMean(v: Review)
    ensures ReportsIdentity(v, IdentityIssues(v)) && forall x :: x in IdentityIssues(v) ==> AboutIdentity(x)
  {
    hide Unsourced, SourceIssues;
    SourceIssuesMean(v, |v.annotations|);
    forall n: nat ensures Unsourced(v, n) ==> n < |v.annotations| { UnsourcedInRange(v, n); }
    RejectedMeans(v);
    DistinctMeans(v.rejected);
  }

  lemma UnsourcedInRange(v: Review, n: nat)
    ensures Unsourced(v, n) ==> n < |v.annotations|
  {}

  lemma DistinctMeans(rejected: seq<Rejection>)
    ensures !Distinct(rejected) <==> exists i, j :: 0 <= i < j < |rejected| && rejected[i].run == rejected[j].run && rejected[i].index == rejected[j].index
  {}

  lemma RejectedMeans(v: Review)
    ensures !NoneAcceptedAndRejected(v) <==> exists i: nat, j: nat :: UsedAndRejected(v, i, j)
  {
    if !NoneAcceptedAndRejected(v) {
      var r, a :| r in v.rejected && a in v.annotations && Rejects(r, a);
      var i :| 0 <= i < |v.rejected| && v.rejected[i] == r;
      var j :| 0 <= j < |v.annotations| && v.annotations[j] == a;
      assert UsedAndRejected(v, i, j);
    }
    if i: nat, j: nat :| UsedAndRejected(v, i, j) {
      assert v.rejected[i] in v.rejected && v.annotations[j] in v.annotations && Rejects(v.rejected[i], v.annotations[j]);
    }
  }

  /** The one-pass check with its Set of source keys. */
  method CheckIdentity(v: Review) returns (issues: seq<Issue>)
    requires Shaped(v)
    ensures issues == IdentityIssues(v)
    ensures ReportsIdentity(v, issues) && forall x :: x in issues ==> AboutIdentity(x)
  {
    IdentityIssuesMean(v);
    hide ReportsIdentity, AboutIdentity, SourceIssues;
    hide Shaped, ShapedAnnotation, Distinct, IdsDistinct, NoneAcceptedAndRejected, SetOf, FindingKey, Sources, BadSource;
    ShapedParts(v);
    issues := [];
    var sources: set<string> := {};
    NoSources(v.annotations);
    NoIssuesYet(v.annotations);
    for i := 0 to |v.annotations|
      invariant AllShaped(v.annotations[..i])
      invariant sources == Sources(v.annotations[..i]) && issues == SourceIssues(v.annotations, i)
    {
      var a := v.annotations[i];
      OneMoreSource(v.annotations, i);
      OneMoreIssue(v.annotations, i);
      if a.sourceFinding.Some? {
        var source := FindingKey(a.sourceRun, a.sourceFinding.value);
        if a.sourceRun.None? || source in sources {
          issues := issues + [SourceMissingOrReused(i)];
        }
        sources := sources + {source};
      }
    }
    assert v.annotations[..|v.annotations|] == v.annotations;
    IdsAreKeys(v.annotations);
    if |SetOf(Ids(v.annotations))| != |v.annotations| {
      issues := issues + [AnnotationIdsRepeat];
    }
    RejectionsAreKeys(v.rejected);
    if |SetOf(RejectionKeys(v.rejected))| != |v.rejected| {
      issues := issues + [DuplicateRejection];
    }
    SomeRejectedSource(v, sources);
    if exists i :: 0 <= i < |v.rejected| && FindingKey(Some(v.rejected[i].run), v.rejected[i].index) in sources {
      issues := issues + [AcceptedAndRejected];
    }
  }

  lemma ShapedParts(v: Review)
    requires Shaped(v)
    ensures AllShaped(v.annotations)
    ensures forall i :: 0 <= i < |v.annotations| && v.annotations[i].sourceFinding.Some? ==> 0 <= v.annotations[i].sourceFinding.value <= MAX_FINDING
    ensures forall i :: 0 <= i < |v.rejected| ==> 0 <= v.rejected[i].index <= MAX_FINDING
  {}

  lemma NoIssuesYet(annotations: seq<Annotation>)
    ensures SourceIssues(annotations, 0) == []
  {}

  lemma OneMoreIssue(annotations: seq<Annotation>, i: nat)
    requires i < |annotations|
    ensures SourceIssues(annotations, i + 1) == SourceIssues(annotations, i) + (if BadSource(annotations, i) then [SourceMissingOrReused(i)] else [])
  {}

  lemma NoSources(annotations: seq<Annotation>)
    ensures Sources(annotations[..0]) == {}
  {}

  lemma SourceKnown(annotations: seq<Annotation>, i: nat)
    requires AllShaped(annotations) && i < |annotations| && annotations[i].sourceFinding.Some?
    ensures SourceKey(annotations[i]) in Sources(annotations[..i]) <==> exists j :: 0 <= j < i && SameSource(annotations[j], annotations[i])
  {
    hide FindingKey;
    var before, a := annotations[..i], annotations[i];
    forall j | 0 <= j < i && annotations[j].sourceFinding.Some?
      ensures SourceKey(before[j]) == SourceKey(a) <==> SameSource(annotations[j], a)
    {
      KeyIsIdentity(before[j].sourceRun, before[j].sourceFinding.value, a.sourceRun, a.sourceFinding.value);
    }
    if j :| 0 <= j < i && SameSource(annotations[j], a) {
      assert SourceKey(before[j]) in Sources(before);
    }
    if SourceKey(a) in Sources(before) {
      var j :| 0 <= j < |before| && before[j].sourceFinding.Some? && SourceKey(before[j]) == SourceKey(a);
      assert SameSource(annotations[j], a);
    }
  }

  lemma OneMoreSource(annotations: seq<Annotation>, i: nat)
    requires AllShaped(annotations) && i < |annotations|
    ensures AllShaped(annotations[..i]) && AllShaped(annotations[..i + 1])
    ensures var a := annotations[i];
      && (a.sourceFinding.None? ==> Sources(annotations[..i + 1]) == Sources(annotations[..i]) && !BadSource(annotations, i))
      && (a.sourceFinding.Some? ==>
           && 0 <= a.sourceFinding.value <= MAX_FINDING
           && Sources(annotations[..i + 1]) == Sources(annotations[..i]) + {FindingKey(a.sourceRun, a.sourceFinding.value)}
           && (BadSource(annotations, i) <==> a.sourceRun.None? || FindingKey(a.sourceRun, a.sourceFinding.value) in Sources(annotations[..i])))
  {
    hide FindingKey;
    var before, more, a := annotations[..i], annotations[..i + 1], annotations[i];
    assert more == before + [a];
    forall k ensures k in Sources(more) <==> k in Sources(before) || (a.sourceFinding.Some? && k == SourceKey(a)) {
      if k in Sources(before) {
        var j :| 0 <= j < |before| && before[j].sourceFinding.Some? && SourceKey(before[j]) == k;
        assert more[j] == before[j];
      }
      if a.sourceFinding.Some? { assert more[i] == a; }
      if k in Sources(more) {
        var j :| 0 <= j < |more| && more[j].sourceFinding.Some? && SourceKey(more[j]) == k;
        if j < i { assert before[j] == more[j]; }
      }
    }
    if a.sourceFinding.Some? { SourceKnown(annotations, i); }
  }

  lemma IdsAreKeys(annotations: seq<Annotation>)
    ensures |SetOf(Ids(annotations))| == |annotations| <==> IdsDistinct(annotations)
  {
    SetSize(Ids(annotations));
    forall i | 0 <= i < |annotations| ensures Ids(annotations)[i] == annotations[i].id {}
    if Distinct(Ids(annotations)) {
      forall i, j | 0 <= i < j < |annotations| ensures annotations[i].id != annotations[j].id {
        assert Ids(annotations)[i] != Ids(annotations)[j];
      }
    }
  }

  lemma RejectionsAreKeys(rejected: seq<Rejection>)
    requires forall i :: 0 <= i < |rejected| ==> 0 <= rejected[i].index <= MAX_FINDING
    ensures |SetOf(RejectionKeys(rejected))| == |rejected| <==> Distinct(rejected)
  {
    hide FindingKey;
    var keys := RejectionKeys(rejected);
    SetSize(keys);
    forall i, j | 0 <= i < j < |rejected| ensures keys[i] == keys[j] <==> rejected[i] == rejected[j] {
      KeyIsIdentity(Some(rejected[i].run), rejected[i].index, Some(rejected[j].run), rejected[j].index);
    }
  }

  lemma SomeRejectedSource(v: Review, sources: set<string>)
    requires Shaped(v) && sources == Sources(v.annotations)
    ensures (exists i :: 0 <= i < |v.rejected| && FindingKey(Some(v.rejected[i].run), v.rejected[i].index) in sources) <==> !NoneAcceptedAndRejected(v)
  {
    hide FindingKey;
    forall i, j | 0 <= i < |v.rejected| && 0 <= j < |v.annotations| && v.annotations[j].sourceFinding.Some?
      ensures FindingKey(Some(v.rejected[i].run), v.rejected[i].index) == SourceKey(v.annotations[j]) <==> Rejects(v.rejected[i], v.annotations[j])
    {
      KeyIsIdentity(Some(v.rejected[i].run), v.rejected[i].index, v.annotations[j].sourceRun, v.annotations[j].sourceFinding.value);
    }
    if i :| 0 <= i < |v.rejected| && FindingKey(Some(v.rejected[i].run), v.rejected[i].index) in sources {
      var j :| 0 <= j < |v.annotations| && v.annotations[j].sourceFinding.Some?
        && SourceKey(v.annotations[j]) == FindingKey(Some(v.rejected[i].run), v.rejected[i].index);
      assert v.rejected[i] in v.rejected && v.annotations[j] in v.annotations && Rejects(v.rejected[i], v.annotations[j]);
    }
    if !NoneAcceptedAndRejected(v) {
      var r, a :| r in v.rejected && a in v.annotations && Rejects(r, a);
      var i :| 0 <= i < |v.rejected| && v.rejected[i] == r;
      var j :| 0 <= j < |v.annotations| && v.annotations[j] == a;
      assert SourceKey(v.annotations[j]) in sources;
    }
  }

  // ---------------------------------------------------------------- what acceptance means

  /** Every sourced region names its run, and no finding is named by two regions. */
  predicate SourcesUsedOnce(v: Review) {
    && (forall i :: 0 <= i < |v.annotations| && v.annotations[i].sourceFinding.Some? ==> v.annotations[i].sourceRun.Some?)
    && forall i, j :: 0 <= i < j < |v.annotations| ==> !SameSource(v.annotations[i], v.annotations[j])
  }

  lemma {:induction false} NoSourceIssues(annotations: seq<Annotation>, n: nat)
    requires n <= |annotations|
    ensures SourceIssues(annotations, n) == [] <==> forall i :: 0 <= i < n ==> !BadSource(annotations, i)
  {
    if n > 0 { NoSourceIssues(annotations, n - 1); }
  }

  /** Region identifiers differ, sourced regions name runs, no finding is used twice or both used and rejected. */
  predicate SoundIdentity(v: Review) {
    && (forall i, j :: 0 <= i < j < |v.annotations| ==> v.annotations[i].id != v.annotations[j].id)
    && (forall i :: 0 <= i < |v.annotations| && v.annotations[i].sourceFinding.Some? ==> v.annotations[i].sourceRun.Some?)
    && (forall i, j :: 0 <= i < j < |v.annotations| && v.annotations[i].sourceFinding.Some? && v.annotations[j].sourceFinding.Some? ==>
          !(v.annotations[i].sourceFinding == v.annotations[j].sourceFinding && v.annotations[i].sourceRun == v.annotations[j].sourceRun))
    && (forall i, j :: 0 <= i < j < |v.rejected| ==> !(v.rejected[i].run == v.rejected[j].run && v.rejected[i].index == v.rejected[j].index))
    && (forall i, j :: 0 <= i < |v.rejected| && 0 <= j < |v.annotations| ==>
          !(v.annotations[j].sourceFinding == Some(v.rejected[i].index) && v.annotations[j].sourceRun == Some(v.rejected[i].run)))
  }

  /** The check accepts a review exactly when its identities are in order. */
  lemma AcceptedIdentity(v: Review)
    ensures IdentityIssues(v) == [] <==> SoundIdentity(v)
  {
    hide IdsDistinct, NoneAcceptedAndRejected, Distinct, SameSource;
    NoSourceIssues(v.annotations, |v.annotations|);
    IdentityParts(v);
    if forall i :: 0 <= i < |v.annotations| ==> !BadSource(v.annotations, i) {
      forall i, j | 0 <= i < j < |v.annotations| ensures !SameSource(v.annotations[i], v.annotations[j]) {
        SourcedTogether(v.annotations[i], v.annotations[j]);
        assert !BadSource(v.annotations, j);
      }
      forall i | 0 <= i < |v.annotations| && v.annotations[i].sourceFinding.Some? ensures v.annotations[i].sourceRun.Some? {
        assert !BadSource(v.annotations, i);
      }
    }
  }

  lemma IdentityParts(v: Review)
    ensures SoundIdentity(v) <==> IdsDistinct(v.annotations) && SourcesUsedOnce(v) && Distinct(v.rejected) && NoneAcceptedAndRejected(v)
  {
    if SoundIdentity(v) {
      forall r, a | r in v.rejected && a in v.annotations ensures !Rejects(r, a) {
        var i :| 0 <= i < |v.rejected| && v.rejected[i] == r;
        var j :| 0 <= j < |v.annotations| && v.annotations[j] == a;
      }
    }
    if NoneAcceptedAndRejected(v) {
      forall i, j | 0 <= i < |v.rejected| && 0 <= j < |v.annotations| ensures !Rejects(v.rejected[i], v.annotations[j]) {}
    }
  }

  lemma SourcedTogether(a: Annotation, b: Annotation)
    ensures SameSource(a, b) ==> b.sourceFinding.Some?
  {}

  // ---------------------------------------------------------------- the outcome

  function ReviewOutcome(annotations: seq<Annotation>, notAssessable: bool): ReviewStatus {
    if notAssessable then NotAssessable
    else if exists i :: 0 <= i < |annotations| && annotations[i].verdict == Violation then Problems
    else if exists i :: 0 <= i < |annotations| && annotations[i].verdict == Unsure then Unreviewed
    else Compliant
  }

  /** The worse of two outcomes: a problem before an unreviewed photo before a compliant one. */
  function Worse(a: ReviewStatus, b: ReviewStatus): ReviewStatus {
    if a.Problems? || b.Problems? then Problems
    else if a.Unreviewed? || b.Unreviewed? then Unreviewed
    else Compliant
  }

  /** The outcome of a photo is the worse outcome of any two parts of its regions. */
  lemma OutcomeOfParts(a: seq<Annotation>, b: seq<Annotation>)
    ensures ReviewOutcome(a + b, false) == Worse(ReviewOutcome(a, false), ReviewOutcome(b, false))
  {
    forall verdict: Verdict ensures Has(a + b, verdict) <==> Has(a, verdict) || Has(b, verdict) { HasInParts(a, b, verdict); }
    OutcomeByVerdicts(a);
    OutcomeByVerdicts(b);
    OutcomeByVerdicts(a + b);
  }

  predicate Has(annotations: seq<Annotation>, verdict: Verdict) {
    exists i :: 0 <= i < |annotations| && annotations[i].verdict == verdict
  }

  lemma HasInParts(a: seq<Annotation>, b: seq<Annotation>, verdict: Verdict)
    ensures Has(a + b, verdict) <==> Has(a, verdict) || Has(b, verdict)
  {
    if Has(a, verdict) {
      var i :| 0 <= i < |a| && a[i].verdict == verdict;
      assert (a + b)[i] == a[i];
    }
    if Has(b, verdict) {
      var i :| 0 <= i < |b| && b[i].verdict == verdict;
      assert (a + b)[|a| + i] == b[i];
    }
  }

  lemma OutcomeByVerdicts(annotations: seq<Annotation>)
    ensures ReviewOutcome(annotations, false) ==
      if Has(annotations, Violation) then Problems else if Has(annotations, Unsure) then Unreviewed else Compliant
  {}

  /** So neither the order nor the repetition of regions matters. */
  lemma OutcomeIgnoresOrder(a: seq<Annotation>, b: seq<Annotation>, notAssessable: bool)
    requires forall x :: x in a <==> x in b
    ensures ReviewOutcome(a, notAssessable) == ReviewOutcome(b, notAssessable)
  {
    hide ReviewOutcome;
    forall verdict: Verdict ensures Has(a, verdict) <==> Has(b, verdict) {
      HasMember(a, b, verdict);
      HasMember(b, a, verdict);
    }
    if notAssessable { NotAssessableOutcome(a, b); } else { OutcomeByVerdicts(a); OutcomeByVerdicts(b); }
  }

  lemma NotAssessableOutcome(a: seq<Annotation>, b: seq<Annotation>)
    ensures ReviewOutcome(a, true) == NotAssessable && ReviewOutcome(b, true) == NotAssessable
  {}

  lemma HasMember(a: seq<Annotation>, b: seq<Annotation>, verdict: Verdict)
    requires forall x :: x in a ==> x in b
    ensures Has(a, verdict) ==> Has(b, verdict)
  {
    if Has(a, verdict) {
      var i :| 0 <= i < |a| && a[i].verdict == verdict;
      assert a[i] in b;
    }
  }

  // ---------------------------------------------------------------- the two schemas

  /** The refinement of a review being saved now. */
  method CheckInput(v: Review) returns (issues: seq<Issue>)
    requires Shaped(v)
    ensures issues == IdentityIssues(v) + InputIssues(v)
    ensures issues == [] <==> SoundIdentity(v) && Explained(v)
    ensures ReportsIdentity(v, issues) && ReportsStatus(v, issues)
  {
    hide SoundIdentity, Explained, ReportsIdentity, ReportsStatus, AboutIdentity, Shaped, IdentityIssues, ReviewOutcome;
    issues := CheckIdentity(v);
    ghost var identity := issues;
    var expected := ReviewOutcome(v.annotations, v.status == NotAssessable);
    if v.status != expected {
      issues := issues + [OutcomeMustBe(expected)];
    }
    if v.status == NotAssessable {
      if v.reason.None? {
        issues := issues + [ChooseReason];
      }
      if v.reason == Some(OtherReason) && v.comment == "" {
        issues := issues + [ExplainWhy];
      }
    }
    if v.isReference && v.status != Compliant {
      issues := issues + [OnlyCompliantReference];
    }
    assert issues == identity + InputIssues(v);
    CheckMeans(v, issues);
  }

  lemma CheckMeans(v: Review, issues: seq<Issue>)
    requires issues == IdentityIssues(v) + InputIssues(v)
    ensures issues == [] <==> SoundIdentity(v) && Explained(v)
    ensures ReportsIdentity(v, issues) && ReportsStatus(v, issues)
  {
    hide SoundIdentity, Explained, Justified, ReportsIdentity, ReportsStatus, IdentityIssues, InputIssues;
    JustifiedHasNoIssues(v);
    ExplainedIsJustified(v);
    AcceptedIdentity(v);
    InputIssuesMean(v, IdentityIssues(v));
    assert |issues| == |IdentityIssues(v)| + |InputIssues(v)|;
  }

  /** The status the regions call for, read off their verdicts. */
  predicate CallsFor(v: Review, status: ReviewStatus) {
    if v.status.NotAssessable? then status.NotAssessable?
    else if exists a :: a in v.annotations && a.verdict.Violation? then status.Problems?
    else if exists a :: a in v.annotations && a.verdict.Unsure? then status.Unreviewed?
    else status.Compliant?
  }

  /** Which issues of status, reason and reference a list holds. */
  ghost predicate ReportsStatus(v: Review, issues: seq<Issue>) {
    && (forall status :: OutcomeMustBe(status) in issues <==> CallsFor(v, status) && v.status != status)
    && (ChooseReason in issues <==> v.status.NotAssessable? && v.reason.None?)
    && (ExplainWhy in issues <==> v.status.NotAssessable? && v.reason == Some(OtherReason) && |v.comment| == 0)
    && (OnlyCompliantReference in issues <==> v.isReference && !v.status.Compliant?)
  }

  /** The status is the one the regions call for, a photo not assessable has a reason and a comment if need be, a reference is clean. */
  predicate Explained(v: Review) {
    && CallsFor(v, v.status)
    && (v.status.NotAssessable? ==> v.reason.Some? && (v.reason.value.OtherReason? ==> |v.comment| > 0))
    && (v.isReference ==> v.status.Compliant?)
  }

  lemma CallsForOutcome(v: Review, status: ReviewStatus)
    ensures CallsFor(v, status) <==> status == ReviewOutcome(v.annotations, v.status == NotAssessable)
  {
    if a :| a in v.annotations && a.verdict.Violation? { var i :| 0 <= i < |v.annotations| && v.annotations[i] == a; }
    if a :| a in v.annotations && a.verdict.Unsure? { var i :| 0 <= i < |v.annotations| && v.annotations[i] == a; }
  }

  lemma ExplainedIsJustified(v: Review)
    ensures Explained(v) <==> Justified(v)
  {
    hide CallsFor, ReviewOutcome;
    CallsForOutcome(v, v.status);
    NotAssessableOutcome(v.annotations, v.annotations);
  }

  lemma InputIssuesMean(v: Review, identity: seq<Issue>)
    requires identity == IdentityIssues(v)
    ensures ReportsIdentity(v, identity + InputIssues(v)) && ReportsStatus(v, identity + InputIssues(v))
  {
    hide ReviewOutcome, CallsFor, IdentityIssues, Unsourced;
    IdentityIssuesMean(v);
    forall status ensures CallsFor(v, status) <==> status == ReviewOutcome(v.annotations, v.status == NotAssessable) { CallsForOutcome(v, status); }
    InputIssuesAre(v);
  }

  lemma InputIssuesAre(v: Review)
    ensures forall x :: x in InputIssues(v) <==> (
      || (x == OutcomeMustBe(ReviewOutcome(v.annotations, v.status == NotAssessable)) && v.status != ReviewOutcome(v.annotations, v.status == NotAssessable))
      || (x == ChooseReason && v.status == NotAssessable && v.reason.None?)
      || (x == ExplainWhy && v.status == NotAssessable && v.reason == Some(OtherReason) && v.comment == "")
      || (x == OnlyCompliantReference && v.isReference && v.status != Compliant))
  {
    hide ReviewOutcome;
  }

  function InputIssues(v: Review): seq<Issue> {
    var expected := ReviewOutcome(v.annotations, v.status == NotAssessable);
    (if v.status != expected then [OutcomeMustBe(expected)] else [])
    + (if v.status == NotAssessable && v.reason.None? then [ChooseReason] else [])
    + (if v.status == NotAssessable && v.reason == Some(OtherReason) && v.comment == "" then [ExplainWhy] else [])
    + (if v.isReference && v.status != Compliant then [OnlyCompliantReference] else [])
  }

  /** Stored reviews, historical ones included, are held to shape and identity. */
  predicate StoredAccepts(v: Review) {
    Shaped(v) && IdentityIssues(v) == []
  }

  predicate InputAccepts(v: Review) {
    Shaped(v) && IdentityIssues(v) + InputIssues(v) == []
  }

  /** The status follows from the regions, unless the reviewer called the photo not assessable and said why. */
  predicate Justified(v: Review) {
    if v.status == NotAssessable then v.reason.Some? && (v.reason == Some(OtherReason) ==> v.comment != "") && !v.isReference
    else v.status == ReviewOutcome(v.annotations, false) && (v.isReference ==> v.status == Compliant)
  }

  /** The sizes both schemas allow. */
  predicate Fits(v: Review) {
    && |v.comment| <= 4000 && |v.annotations| <= 100 && |v.rejected| <= 300
    && (forall a :: a in v.annotations ==>
         && |a.comment| <= 2000 && (a.objectName.Some? ==> 1 <= |a.objectName.value| <= 100)
         && (a.objectId.None? && a.objectName.None? ==> |a.comment| > 0)
         && (a.sourceFinding.Some? ==> 0 <= a.sourceFinding.value <= 29))
    && forall r :: r in v.rejected ==> 0 <= r.index <= 29
  }

  lemma FitsIsShaped(v: Review)
    ensures Fits(v) <==> Shaped(v)
  {
    if Fits(v) {
      forall i | 0 <= i < |v.annotations| ensures ShapedAnnotation(v.annotations[i]) { assert v.annotations[i] in v.annotations; }
      forall i | 0 <= i < |v.rejected| ensures 0 <= v.rejected[i].index <= MAX_FINDING { assert v.rejected[i] in v.rejected; }
    }
  }

  /**
   * What the two schemas accept, field by field: stored reviews fit and have sound identities;
   * a review saved now must also explain its status. So the first accept all the second do.
   */
  lemma SavedIsStoredAndJustified(v: Review)
    ensures StoredAccepts(v) <==> Fits(v) && SoundIdentity(v)
    ensures InputAccepts(v) <==> Fits(v) && SoundIdentity(v) && Explained(v)
  {
    hide Shaped, IdentityIssues, Justified, SoundIdentity, Explained, Fits;
    FitsIsShaped(v);
    AcceptedIdentity(v);
    ExplainedIsJustified(v);
    assert |IdentityIssues(v) + InputIssues(v)| == |IdentityIssues(v)| + |InputIssues(v)|;
    JustifiedHasNoIssues(v);
  }

  lemma JustifiedHasNoIssues(v: Review)
    ensures InputIssues(v) == [] <==> Justified(v)
  {
    var expected := ReviewOutcome(v.annotations, v.status == NotAssessable);
    if v.status == NotAssessable { NotAssessableOutcome(v.annotations, v.annotations); }
    assert v.status != expected ==> InputIssues(v)[0] == OutcomeMustBe(expected);
  }

  /** Whatever is saved reads back: the stored schema accepts it, with its regions in any order giving its status. */
  lemma SavedReadsBack(v: Review, regions: seq<Annotation>)
    requires InputAccepts(v) && forall x :: x in regions <==> x in v.annotations
    ensures StoredAccepts(v) && v.status == ReviewOutcome(regions, v.status == NotAssessable)
    ensures v.isReference ==> forall a :: a in v.annotations ==> a.verdict == Allowed
  {
    hide Shaped, IdentityIssues, ReviewOutcome;
    SavedIsStoredAndJustified(v);
    ExplainedIsJustified(v);
    OutcomeIgnoresOrder(regions, v.annotations, v.status == NotAssessable);
    NotAssessableOutcome(v.annotations, v.annotations);
    OutcomeByVerdicts(v.annotations);
  }
}
