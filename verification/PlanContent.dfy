/** Remediation plans and the canonical form that is hashed. */
module PlanContent {
  import opened Prelude
  import S = Sorting

  type Uuid = nat

  /** A JSON value of a parameter dictionary; `Ident` is the text of a UUID. */
  datatype Value = Text(text: string) | Number(number: int) | Ident(id: Uuid)
  type Params = map<string, Value>

  datatype Target = Target(resource: Uuid, container: string, service: string, generation: int)

  datatype Step = Step(
    id: Uuid, plan: Uuid, resource: Uuid, position: int, action: string, schema: string,
    parameters: Params, verification: Params)

  datatype Plan = Plan(
    id: Uuid, incident: Uuid, diagnosis: Uuid, version: int, risk: string, target: Target,
    steps: seq<Step>, profile: Option<string>, hash: string, approved: bool)

  /** The fields of a step that enter the hash: its own id and its plan's do not. */
  datatype HashedStep = HashedStep(
    position: int, action: string, resource: Uuid, schema: string, parameters: Params, verification: Params)

  datatype Canonical = Canonical(
    incident: Uuid, diagnosis: Uuid, version: int, risk: string, target: Target,
    steps: seq<HashedStep>, profile: Option<string>)

  function Hashed(s: Step): HashedStep {
    HashedStep(s.position, s.action, s.resource, s.schema, s.parameters, s.verification)
  }

  function HashedSteps(steps: seq<Step>): (r: seq<HashedStep>)
    ensures |r| == |steps| && forall i :: 0 <= i < |r| ==> r[i] == Hashed(steps[i])
  {
    seq(|steps|, i requires 0 <= i < |steps| => Hashed(steps[i]))
  }

  // ---------------------------------------------------------------- sorting by position

  function PositionOf(s: HashedStep): int {
    s.position
  }

  /** `sorted(steps, key=position)`, which is stable. */
  function Sort(s: seq<HashedStep>): seq<HashedStep> {
    S.Sort(s, PositionOf)
  }

  /** The steps at one position, in their order. */
  function AtPosition(s: seq<HashedStep>, p: int): seq<HashedStep> {
    S.AtKey(s, PositionOf, p)
  }

  ghost predicate SameAtEachPosition(s: seq<HashedStep>, t: seq<HashedStep>) {
    forall p :: AtPosition(s, p) == AtPosition(t, p)
  }

  ghost predicate DistinctPositions(s: seq<HashedStep>) {
    forall i, j :: 0 <= i < j < |s| ==> s[i].position != s[j].position
  }

  lemma SortMeans(s: seq<HashedStep>)
    ensures var t := Sort(s);
            && multiset(t) == multiset(s)
            && (forall i, j :: 0 <= i < j < |t| ==> t[i].position <= t[j].position)
            && (DistinctPositions(s) ==> DistinctPositions(t))
  {
    S.SortPermutes(s, PositionOf);
    S.SortSorts(s, PositionOf);
    var t := Sort(s);
    forall i, j | 0 <= i < j < |t| ensures t[i].position <= t[j].position {
      assert PositionOf(t[i]) <= PositionOf(t[j]);
    }
    if DistinctPositions(s) {
      assert S.Distinct(s, PositionOf);
      S.SortDistinct(s, PositionOf);
      forall i, j | 0 <= i < j < |t| ensures t[i].position != t[j].position {
        assert PositionOf(t[i]) != PositionOf(t[j]);
      }
    }
  }

  // ---------------------------------------------------------------- canonical form

  function Normalised(profile: Option<string>): Option<string> {
    if profile == Some("") then None else profile
  }

  function CanonicalForm(p: Plan): Canonical {
    Canonical(p.incident, p.diagnosis, p.version, p.risk, p.target, Sort(HashedSteps(p.steps)), Normalised(p.profile))
  }

  /** The plans agree on everything hashed outside the steps. */
  predicate SameHeader(p: Plan, q: Plan) {
    && p.incident == q.incident && p.diagnosis == q.diagnosis && p.version == q.version && p.risk == q.risk
    && p.target == q.target && (p.profile == q.profile || {p.profile, q.profile} == {None, Some("")})
  }

  /** What enters the hash of a step: everything but its own id and its plan's. */
  lemma HashedIff(a: Step, b: Step)
    ensures Hashed(a) == Hashed(b) <==> a == b.(id := a.id, plan := a.plan)
  {
  }

  /** For all plans: the canonical forms are equal exactly when the headers agree and, position by position,
      the hashed steps agree in order. */
  lemma CanonicalExactly(p: Plan, q: Plan)
    ensures CanonicalForm(p) == CanonicalForm(q) <==>
            SameHeader(p, q) && SameAtEachPosition(HashedSteps(p.steps), HashedSteps(q.steps))
  {
    var s, t := HashedSteps(p.steps), HashedSteps(q.steps);
    forall x ensures AtPosition(Sort(s), x) == AtPosition(s, x) && AtPosition(Sort(t), x) == AtPosition(t, x) {
      S.SortAt(s, PositionOf, x);
      S.SortAt(t, PositionOf, x);
    }
    if SameAtEachPosition(s, t) {
      S.SortSorts(s, PositionOf);
      S.SortSorts(t, PositionOf);
      forall x ensures S.AtKey(Sort(s), PositionOf, x) == S.AtKey(Sort(t), PositionOf, x) {
        assert AtPosition(s, x) == AtPosition(t, x);
      }
      S.SortedUnique(Sort(s), Sort(t), PositionOf);
    } else {
      var x :| AtPosition(s, x) != AtPosition(t, x);
      assert Sort(s) != Sort(t);
    }
  }

  lemma {:induction false} AtPositionCounts(s: seq<HashedStep>, p: int, x: HashedStep)
    ensures multiset(AtPosition(s, p))[x] == if x.position == p then multiset(s)[x] else 0
    decreases |s|
  {
    if s != [] {
      AtPositionCounts(s[1..], p, x);
      assert s == [s[0]] + s[1..];
    }
  }

  lemma {:induction false} AtMostOne(s: seq<HashedStep>, p: int)
    requires DistinctPositions(s)
    ensures |AtPosition(s, p)| <= 1
    decreases |s|
  {
    if s != [] {
      AtMostOne(s[1..], p);
      if s[0].position == p {
        NoneElsewhere(s[1..], p);
      }
    }
  }

  lemma {:induction false} NoneElsewhere(s: seq<HashedStep>, p: int)
    requires forall i :: 0 <= i < |s| ==> s[i].position != p
    ensures AtPosition(s, p) == []
    decreases |s|
  {
    if s != [] {
      NoneElsewhere(s[1..], p);
    }
  }

  lemma SameMultiset(a: seq<HashedStep>, b: seq<HashedStep>)
    requires multiset(a) == multiset(b) && |a| <= 1
    ensures a == b
  {
    assert |multiset(a)| == |a| && |multiset(b)| == |b|;
    if |a| == 1 {
      assert a[0] in multiset(b);
    }
  }

  lemma {:induction false} SameAtGivesMultiset(s: seq<HashedStep>, t: seq<HashedStep>)
    requires SameAtEachPosition(s, t)
    ensures multiset(s) == multiset(t)
  {
    forall x ensures multiset(s)[x] == multiset(t)[x] {
      AtPositionCounts(s, x.position, x);
      AtPositionCounts(t, x.position, x);
      assert AtPosition(s, x.position) == AtPosition(t, x.position);
    }
  }

  /** When one plan's positions are distinct, as in every accepted plan: equal canonical forms mean equal headers
      and steps that are permutations of each other on the hashed fields. */
  lemma CanonicalUpToOrder(p: Plan, q: Plan)
    requires DistinctPositions(HashedSteps(p.steps))
    ensures CanonicalForm(p) == CanonicalForm(q) <==>
            SameHeader(p, q) && multiset(HashedSteps(p.steps)) == multiset(HashedSteps(q.steps))
  {
    var s, t := HashedSteps(p.steps), HashedSteps(q.steps);
    CanonicalExactly(p, q);
    if SameAtEachPosition(s, t) {
      SameAtGivesMultiset(s, t);
    }
    if multiset(s) == multiset(t) {
      forall x ensures AtPosition(s, x) == AtPosition(t, x) {
        forall y ensures multiset(AtPosition(s, x))[y] == multiset(AtPosition(t, x))[y] {
          AtPositionCounts(s, x, y);
          AtPositionCounts(t, x, y);
        }
        assert multiset(AtPosition(s, x)) == multiset(AtPosition(t, x));
        AtMostOne(s, x);
        SameMultiset(AtPosition(s, x), AtPosition(t, x));
      }
    }
  }

  /** With a shared position the order matters: swapping two different steps at one position changes the canonical form. */
  lemma SharedPositionMatters(p: Plan, a: Step, b: Step)
    requires p.steps == [a, b] && a.position == b.position && Hashed(a) != Hashed(b)
    ensures multiset(HashedSteps(p.steps)) == multiset(HashedSteps([b, a]))
    ensures CanonicalForm(p) != CanonicalForm(p.(steps := [b, a]))
  {
    var s, t := HashedSteps([a, b]), HashedSteps([b, a]);
    assert s == [Hashed(a), Hashed(b)] && t == [Hashed(b), Hashed(a)];
    CanonicalExactly(p, p.(steps := [b, a]));
    assert AtPosition(s, a.position)[0] == Hashed(a);
    assert AtPosition(t, a.position)[0] == Hashed(b);
  }

  /** SHA-256 over the serialised canonical form, taken to be injective. */
  ghost predicate Injective(sha: Canonical -> string) {
    forall a, b :: sha(a) == sha(b) ==> a == b
  }

  function ContentHash(sha: Canonical -> string, p: Plan): string {
    sha(CanonicalForm(p))
  }

  /** Tamper evidence: an equal hash means nothing hashed was changed but the order of the steps. */
  lemma HashDetectsTampering(sha: Canonical -> string, p: Plan, q: Plan)
    requires Injective(sha) && DistinctPositions(HashedSteps(p.steps))
    ensures ContentHash(sha, p) == ContentHash(sha, q) <==>
            SameHeader(p, q) && multiset(HashedSteps(p.steps)) == multiset(HashedSteps(q.steps))
  {
    CanonicalUpToOrder(p, q);
  }
}
