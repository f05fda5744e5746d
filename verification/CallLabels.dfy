/**
  Labels detected during a call: the accumulated list, and the timeline that says for
  each transcript revision what was current, what was new, and on what evidence.
 */
module CallLabels {
  import opened Common
  import opened StableSort
  import Coaching

  datatype Label =
    | ProductInformation | PriceObjection | CancellationRequest | TechnicalIssue
    | Complaint | RenewalInterest | ChurnRisk | NoAction

  datatype View = Delta | BoundedContext | BothViews

  datatype Detected = Detected(name: Label, first: nat, latest: nat, source: Coaching.Source,
                               modelId: Option<Coaching.Text>, profileId: Option<Coaching.Text>)

  datatype Evidence = Evidence(name: Label, source: Coaching.Source, modelId: Option<Coaching.Text>,
                               profileId: Option<Coaching.Text>, view: Option<View>)

  datatype Diagnostic = Diagnostic(revision: nat, current: seq<Label>, newly: seq<Label>, evidence: seq<Evidence>)

  /** One call of `record_detected_labels`; `raw` holds each label's canonical form, if it has one. */
  datatype Recording = Recording(raw: seq<Option<Label>>, revision: nat, source: Coaching.Source,
                                 modelId: Option<Coaching.Text>, profileId: Option<Coaching.Text>,
                                 views: map<Label, View>)

  datatype Labels = Labels(active: seq<Label>, detected: seq<Detected>, timeline: seq<Diagnostic>)

  const NONE_YET := Labels([], [], [])

  // ----- Canonical labels -----

  /** The distinct known labels, in order of first appearance. */
  function FirstSeen(raw: seq<Option<Label>>): seq<Label> {
    if raw == [] then []
    else
      var seen, last := FirstSeen(raw[..|raw| - 1]), raw[|raw| - 1];
      if last.Some? && last.value !in seen then seen + [last.value] else seen
  }

  function Business(labels: seq<Label>): seq<Label> {
    if labels == [] then []
    else Business(labels[..|labels| - 1]) + (if labels[|labels| - 1] != NoAction then [labels[|labels| - 1]] else [])
  }

  function Canonical(raw: seq<Option<Label>>): seq<Label> {
    var seen := FirstSeen(raw);
    if Business(seen) != [] then Business(seen) else seen
  }

  ghost predicate Distinct<T>(xs: seq<T>) {
    forall i, j :: 0 <= i < j < |xs| ==> xs[i] != xs[j]
  }

  /** Either business labels alone, or `NoAction` alone, or nothing. */
  ghost predicate Exclusive(labels: seq<Label>) {
    NoAction in labels ==> labels == [NoAction]
  }

  lemma {:induction false} FirstSeenIsDistinct(raw: seq<Option<Label>>)
    ensures Distinct(FirstSeen(raw))
    ensures forall l :: l in FirstSeen(raw) <==> Some(l) in raw
  {
    if raw != [] {
      FirstSeenIsDistinct(raw[..|raw| - 1]);
      assert raw == raw[..|raw| - 1] + [raw[|raw| - 1]];
    }
  }

  lemma {:induction false} BusinessHolds(labels: seq<Label>)
    ensures forall l :: l in Business(labels) <==> l in labels && l != NoAction
  {
    if labels != [] {
      BusinessHolds(labels[..|labels| - 1]);
      assert labels == labels[..|labels| - 1] + [labels[|labels| - 1]];
    }
  }

  lemma {:induction false} DistinctSnoc<T>(xs: seq<T>, x: T)
    requires Distinct(xs) && x !in xs
    ensures Distinct(xs + [x])
  {
  }

  lemma {:induction false} BusinessIsDistinct(labels: seq<Label>)
    requires Distinct(labels)
    ensures Distinct(Business(labels))
  {
    if labels != [] {
      var front, last := labels[..|labels| - 1], labels[|labels| - 1];
      BusinessIsDistinct(front);
      BusinessHolds(front);
      assert last !in front;
      if last != NoAction {
        DistinctSnoc(Business(front), last);
      }
    }
  }

  lemma {:induction false} TwoHoldBusiness(labels: seq<Label>)
    requires Distinct(labels) && |labels| >= 2
    ensures exists l :: l in labels && l != NoAction
  {
    assert labels[0] in labels && labels[1] in labels && labels[0] != labels[1];
  }

  /** Canonical labels are distinct, known, and mix `NoAction` with nothing. */
  lemma {:induction false} CanonicalIsExclusive(raw: seq<Option<Label>>)
    ensures Distinct(Canonical(raw)) && Exclusive(Canonical(raw))
    ensures forall l :: l != NoAction ==> (l in Canonical(raw) <==> Some(l) in raw)
    ensures NoAction in Canonical(raw) <==>
      Some(NoAction) in raw && forall l :: l != NoAction ==> Some(l) !in raw
  {
    var seen := FirstSeen(raw);
    FirstSeenIsDistinct(raw);
    BusinessHolds(seen);
    BusinessIsDistinct(seen);
    if Business(seen) == [] {
      if |seen| > 1 {
        TwoHoldBusiness(seen);
      }
    } else {
      var l := Business(seen)[0];
      assert l in Business(seen);
      assert Some(l) in raw && l != NoAction;
    }
  }

  // ----- The accumulated list -----

  function Combined(first: Coaching.Source, second: Coaching.Source): Coaching.Source {
    if first == second then first else Coaching.BOTH
  }

  function Names(ds: seq<Detected>): (r: seq<Label>)
    ensures |r| == |ds| && forall i :: 0 <= i < |r| ==> r[i] == ds[i].name
  {
    seq(|ds|, i requires 0 <= i < |ds| => ds[i].name)
  }

  predicate Given(text: Option<Coaching.Text>) {
    text.Some? && text.value != []
  }

  function FirstTime(l: Label, r: Recording): Detected {
    Detected(l, r.revision, r.revision, r.source,
             if r.source != Coaching.RULE then r.modelId else None,
             if r.source != Coaching.RULE then r.profileId else None)
  }

  function Again(d: Detected, r: Recording): Detected {
    d.(latest := r.revision, source := Combined(d.source, r.source),
       modelId := if r.source != Coaching.RULE && Given(r.modelId) then r.modelId else d.modelId,
       profileId := if r.source != Coaching.RULE && Given(r.profileId) then r.profileId else d.profileId)
  }

  /** A dictionary entry set in place, or added at the end. */
  function Touch(ds: seq<Detected>, l: Label, r: Recording): seq<Detected> {
    if ds == [] then [FirstTime(l, r)]
    else if ds[0].name == l then [Again(ds[0], r)] + ds[1..]
    else [ds[0]] + Touch(ds[1..], l, r)
  }

  function TouchAll(ds: seq<Detected>, ls: seq<Label>, r: Recording): seq<Detected> {
    if ls == [] then ds else Touch(TouchAll(ds, ls[..|ls| - 1], r), ls[|ls| - 1], r)
  }

  function NotIn(ls: seq<Label>, known: seq<Label>): seq<Label> {
    if ls == [] then []
    else NotIn(ls[..|ls| - 1], known) + (if ls[|ls| - 1] !in known then [ls[|ls| - 1]] else [])
  }

  /** The labels a recording contributes: business labels, or `NoAction` when nothing is detected yet. */
  function Incoming(detected: seq<Detected>, raw: seq<Option<Label>>): seq<Label> {
    var cleaned := Canonical(raw);
    if Business(cleaned) != [] then Business(cleaned)
    else if detected != [] then []
    else cleaned
  }

  function KeptBusiness(ds: seq<Detected>): seq<Detected> {
    if ds == [] then []
    else KeptBusiness(ds[..|ds| - 1]) + (if ds[|ds| - 1].name != NoAction then [ds[|ds| - 1]] else [])
  }

  function Existing(detected: seq<Detected>, raw: seq<Option<Label>>): seq<Detected> {
    if Business(Canonical(raw)) != [] then KeptBusiness(detected) else detected
  }

  // ----- The timeline -----

  function EvidenceOf(l: Label, previous: Option<Evidence>, r: Recording): Evidence {
    var ruled := r.source == Coaching.RULE;
    Evidence(l,
      if previous.None? then r.source else Combined(previous.value.source, r.source),
      if !ruled && Given(r.modelId) then r.modelId else if previous.Some? then previous.value.modelId else None,
      if !ruled && Given(r.profileId) then r.profileId else if previous.Some? then previous.value.profileId else None,
      if !ruled && l in r.views then Some(r.views[l]) else if previous.Some? then previous.value.view else None)
  }

  function Attest(es: seq<Evidence>, l: Label, r: Recording): seq<Evidence> {
    if es == [] then [EvidenceOf(l, None, r)]
    else if es[0].name == l then [EvidenceOf(l, Some(es[0]), r)] + es[1..]
    else [es[0]] + Attest(es[1..], l, r)
  }

  function AttestAll(es: seq<Evidence>, ls: seq<Label>, r: Recording): seq<Evidence> {
    if ls == [] then es else Attest(AttestAll(es, ls[..|ls| - 1], r), ls[|ls| - 1], r)
  }

  function At(timeline: seq<Diagnostic>, revision: nat): (d: Option<Diagnostic>)
    ensures d.Some? ==> d.value in timeline && d.value.revision == revision
    ensures d.None? ==> forall x :: x in timeline ==> x.revision != revision
  {
    if timeline == [] then None
    else if timeline[0].revision == revision then Some(timeline[0])
    else At(timeline[1..], revision)
  }

  function Others(timeline: seq<Diagnostic>, revision: nat): seq<Diagnostic> {
    if timeline == [] then []
    else
      var front := Others(timeline[..|timeline| - 1], revision);
      if timeline[|timeline| - 1].revision != revision then front + [timeline[|timeline| - 1]] else front
  }

  predicate Earlier(x: Diagnostic, y: Diagnostic) {
    x.revision < y.revision
  }

  function NewlyAt(timeline: seq<Diagnostic>, revision: nat): seq<Label> {
    var d := At(timeline, revision);
    if d.Some? then d.value.newly else []
  }

  /** `dict.fromkeys`: the first of each label. */
  function OnceEach(ls: seq<Label>): seq<Label> {
    if ls == [] then []
    else
      var front := OnceEach(ls[..|ls| - 1]);
      if ls[|ls| - 1] in front then front else front + [ls[|ls| - 1]]
  }

  function DiagnosticFor(s: Labels, incoming: seq<Label>, newly: seq<Label>, r: Recording): Diagnostic {
    var existing := At(s.timeline, r.revision);
    Diagnostic(r.revision, s.active,
               OnceEach((if existing.Some? then existing.value.newly else []) + newly),
               AttestAll(if existing.Some? then existing.value.evidence else [], incoming, r))
  }

  function Upserted(timeline: seq<Diagnostic>, d: Diagnostic): seq<Diagnostic> {
    Sort(Others(timeline, d.revision) + [d], Earlier)
  }

  /** Python's `record_detected_labels`. */
  function Record(s: Labels, r: Recording): Labels {
    var incoming := Incoming(s.detected, r.raw);
    var newly := NotIn(incoming, Names(s.detected));
    s.(detected := TouchAll(Existing(s.detected, r.raw), incoming, r),
       timeline := Upserted(s.timeline, DiagnosticFor(s, incoming, newly, r)))
  }

  /** The active labels change between recordings; the accumulated ones do not. */
  datatype Act = Activate(raw: seq<Option<Label>>) | Note(r: Recording)

  function Do(s: Labels, a: Act): Labels {
    match a
    case Activate(raw) => s.(active := Canonical(raw))
    case Note(r) => Record(s, r)
  }

  function Run(s: Labels, acts: seq<Act>): Labels {
    if acts == [] then s else Do(Run(s, acts[..|acts| - 1]), acts[|acts| - 1])
  }

  // ----- What a recording does to the accumulated list -----

  /** Each detected label with the revision that first showed it. */
  function Origins(ds: seq<Detected>): (r: seq<(Label, nat)>)
    ensures |r| == |ds| && forall i :: 0 <= i < |r| ==> r[i] == (ds[i].name, ds[i].first)
  {
    seq(|ds|, i requires 0 <= i < |ds| => (ds[i].name, ds[i].first))
  }

  function Stamped(ls: seq<Label>, revision: nat): (r: seq<(Label, nat)>)
    ensures |r| == |ls| && forall i :: 0 <= i < |r| ==> r[i] == (ls[i], revision)
  {
    seq(|ls|, i requires 0 <= i < |ls| => (ls[i], revision))
  }

  lemma {:induction false} Cons(d: Detected, ds: seq<Detected>)
    ensures Origins([d] + ds) == [(d.name, d.first)] + Origins(ds)
    ensures Names([d] + ds) == [d.name] + Names(ds)
  {
  }

  /** A touched entry keeps its place and first revision; a new one comes last and starts now. */
  lemma {:induction false} TouchOrigins(ds: seq<Detected>, l: Label, r: Recording)
    ensures Origins(Touch(ds, l, r)) == if l in Names(ds) then Origins(ds) else Origins(ds) + [(l, r.revision)]
    ensures Names(Touch(ds, l, r)) == if l in Names(ds) then Names(ds) else Names(ds) + [l]
  {
    hide Origins;
    hide Names;
    if ds == [] {
      Cons(FirstTime(l, r), []);
      assert [FirstTime(l, r)] + [] == [FirstTime(l, r)];
    } else {
      Cons(ds[0], ds[1..]);
      assert [ds[0]] + ds[1..] == ds;
      if ds[0].name == l {
        Cons(Again(ds[0], r), ds[1..]);
      } else {
        TouchOrigins(ds[1..], l, r);
        Cons(ds[0], Touch(ds[1..], l, r));
      }
    }
  }

  lemma {:induction false} NotInHolds(ls: seq<Label>, known: seq<Label>)
    ensures forall l :: l in NotIn(ls, known) <==> l in ls && l !in known
  {
    if ls != [] {
      NotInHolds(ls[..|ls| - 1], known);
      assert ls == ls[..|ls| - 1] + [ls[|ls| - 1]];
    }
  }

  lemma {:induction false} NotInIsDistinct(ls: seq<Label>, known: seq<Label>)
    requires Distinct(ls)
    ensures Distinct(NotIn(ls, known))
  {
    if ls != [] {
      var front, last := ls[..|ls| - 1], ls[|ls| - 1];
      NotInIsDistinct(front, known);
      NotInHolds(front, known);
      assert last !in front;
      if last !in known {
        DistinctSnoc(NotIn(front, known), last);
      }
    }
  }

  lemma {:induction false} StampedSnoc(ls: seq<Label>, l: Label, revision: nat)
    ensures Stamped(ls + [l], revision) == Stamped(ls, revision) + [(l, revision)]
  {
  }

  /** Distinct labels recorded in turn: the old origins, then the unknown labels, each starting now. */
  lemma {:induction false} TouchAllOrigins(ds: seq<Detected>, ls: seq<Label>, r: Recording)
    requires Distinct(ls)
    ensures Origins(TouchAll(ds, ls, r)) == Origins(ds) + Stamped(NotIn(ls, Names(ds)), r.revision)
    ensures Names(TouchAll(ds, ls, r)) == Names(ds) + NotIn(ls, Names(ds))
  {
    if ls == [] {
      assert Origins(ds) + Stamped([], r.revision) == Origins(ds);
    } else {
      var front, last := ls[..|ls| - 1], ls[|ls| - 1];
      TouchAllOrigins(ds, front, r);
      TouchOrigins(TouchAll(ds, front, r), last, r);
      assert last !in front;
      NotInHolds(front, Names(ds));
      StampedSnoc(NotIn(front, Names(ds)), last, r.revision);
    }
  }

  lemma {:induction false} AllBusinessIsKept(ds: seq<Detected>)
    requires NoAction !in Names(ds)
    ensures KeptBusiness(ds) == ds
  {
    if ds != [] {
      assert Names(ds) == Names(ds[..|ds| - 1]) + [ds[|ds| - 1].name];
      AllBusinessIsKept(ds[..|ds| - 1]);
    }
  }

  /** Before anything new is added: business labels push out a lone `NoAction`, and nothing else leaves. */
  lemma {:induction false} ExistingLabels(ds: seq<Detected>, raw: seq<Option<Label>>)
    requires Exclusive(Names(ds))
    ensures Existing(ds, raw) == if Business(Canonical(raw)) != [] && NoAction in Names(ds) then [] else ds
  {
    if NoAction in Names(ds) {
      assert |ds| == 1 && ds[0].name == NoAction;
      assert ds[..0] == [];
    } else {
      AllBusinessIsKept(ds);
    }
  }

  /** What comes in is distinct, and is business only, or `NoAction` on an empty list, or nothing. */
  lemma {:induction false} IncomingLabels(ds: seq<Detected>, raw: seq<Option<Label>>)
    ensures Distinct(Incoming(ds, raw))
    ensures NoAction in Incoming(ds, raw) ==> ds == [] && Incoming(ds, raw) == [NoAction]
    ensures forall l :: l != NoAction ==> (l in Incoming(ds, raw) <==> Some(l) in raw)
    ensures Business(Canonical(raw)) == [] && ds != [] ==> Incoming(ds, raw) == []
  {
    var cleaned := Canonical(raw);
    CanonicalIsExclusive(raw);
    BusinessHolds(cleaned);
    BusinessIsDistinct(cleaned);
    if Business(cleaned) == [] {
      forall l | l != NoAction ensures l !in cleaned {
        assert l !in Business(cleaned);
      }
    }
  }

  // ----- What it does to the timeline -----

  ghost predicate Strict(timeline: seq<Diagnostic>) {
    forall i, j :: 0 <= i < j < |timeline| ==> timeline[i].revision < timeline[j].revision
  }

  lemma {:induction false} AtIsUnique(timeline: seq<Diagnostic>, d: Diagnostic)
    requires Strict(timeline) && d in timeline
    ensures At(timeline, d.revision) == Some(d)
  {
  }

  lemma {:induction false} OthersHold(timeline: seq<Diagnostic>, revision: nat)
    ensures forall d :: d in Others(timeline, revision) <==> d in timeline && d.revision != revision
  {
    if timeline != [] {
      OthersHold(timeline[..|timeline| - 1], revision);
      assert timeline == timeline[..|timeline| - 1] + [timeline[|timeline| - 1]];
    }
  }

  lemma {:induction false} OthersStrict(timeline: seq<Diagnostic>, revision: nat)
    requires Strict(timeline)
    ensures Strict(Others(timeline, revision))
  {
    if timeline != [] {
      var front, last := timeline[..|timeline| - 1], timeline[|timeline| - 1];
      OthersStrict(front, revision);
      OthersHold(front, revision);
      var kept := Others(front, revision);
      forall i | 0 <= i < |kept| ensures kept[i].revision < last.revision {
        assert kept[i] in front;
      }
    }
  }

  lemma {:induction false} InsertStrict(timeline: seq<Diagnostic>, d: Diagnostic)
    requires Strict(timeline) && forall x :: x in timeline ==> x.revision != d.revision
    ensures Strict(Insert(timeline, d, Earlier))
  {
    if timeline != [] {
      var front, last := timeline[..|timeline| - 1], timeline[|timeline| - 1];
      assert last in timeline;
      if Earlier(d, last) {
        InsertStrict(front, d);
        var placed := Insert(front, d, Earlier);
        forall i | 0 <= i < |placed| ensures placed[i].revision < last.revision {
          assert placed[i] in multiset(placed);
          assert placed[i] == d || placed[i] in multiset(front);
        }
      }
    }
  }

  /** The timeline stays strictly increasing, and only this revision's entry changes. */
  lemma {:induction false} UpsertedTimeline(timeline: seq<Diagnostic>, d: Diagnostic)
    requires Strict(timeline)
    ensures Strict(Upserted(timeline, d))
    ensures forall revision: nat ::
      At(Upserted(timeline, d), revision) == if revision == d.revision then Some(d) else At(timeline, revision)
  {
    var others, after := Others(timeline, d.revision), Upserted(timeline, d);
    OthersStrict(timeline, d.revision);
    OthersHold(timeline, d.revision);
    SortOfOneMore(others, d, Earlier);
    InsertStrict(others, d);
    forall revision: nat
      ensures At(after, revision) == if revision == d.revision then Some(d) else At(timeline, revision)
    {
      UpsertedMember(timeline, d, d);
      if revision == d.revision {
        AtIsUnique(after, d);
      } else {
        var was, now := At(timeline, revision), At(after, revision);
        if was.Some? {
          UpsertedMember(timeline, d, was.value);
          AtIsUnique(after, was.value);
        } else if now.Some? {
          UpsertedMember(timeline, d, now.value);
        }
      }
    }
  }

  lemma {:induction false} UpsertedMember(timeline: seq<Diagnostic>, d: Diagnostic, x: Diagnostic)
    ensures x in Upserted(timeline, d) <==> x == d || (x in timeline && x.revision != d.revision)
  {
    OthersHold(timeline, d.revision);
    assert x in multiset(Upserted(timeline, d)) <==> x in multiset(Others(timeline, d.revision) + [d]);
  }

  lemma {:induction false} OnceEachHolds(ls: seq<Label>)
    ensures forall l :: l in OnceEach(ls) <==> l in ls
  {
    if ls != [] {
      OnceEachHolds(ls[..|ls| - 1]);
      assert ls == ls[..|ls| - 1] + [ls[|ls| - 1]];
    }
  }

  /** A label is newly accumulated at a revision exactly if it was, or this recording adds it there. */
  lemma {:induction false} RecordedNewly(s: Labels, r: Recording, revision: nat, l: Label)
    requires Strict(s.timeline)
    ensures Strict(Record(s, r).timeline)
    ensures l in NewlyAt(Record(s, r).timeline, revision) <==>
      || l in NewlyAt(s.timeline, revision)
      || (revision == r.revision && l in Incoming(s.detected, r.raw) && l !in Names(s.detected))
  {
    var incoming := Incoming(s.detected, r.raw);
    var newly := NotIn(incoming, Names(s.detected));
    var d := DiagnosticFor(s, incoming, newly, r);
    UpsertedTimeline(s.timeline, d);
    assert At(Record(s, r).timeline, revision) == if revision == d.revision then Some(d) else At(s.timeline, revision);
    OnceEachHolds(NewlyAt(s.timeline, r.revision) + newly);
    NotInHolds(incoming, Names(s.detected));
  }

  // ----- What every run keeps -----

  /** The timeline tells where each label came from: business labels exactly, `NoAction` at most once. */
  ghost predicate Traced(timeline: seq<Diagnostic>, origins: seq<(Label, nat)>) {
    && (forall l, revision: nat :: l != NoAction ==> (l in NewlyAt(timeline, revision) <==> (l, revision) in origins))
    && (forall revision: nat :: (NoAction, revision) in origins ==> NoAction in NewlyAt(timeline, revision))
    && (forall revision: nat :: NoAction in NewlyAt(timeline, revision) ==> origins != [])
    && (forall r1: nat, r2: nat :: NoAction in NewlyAt(timeline, r1) && NoAction in NewlyAt(timeline, r2) ==> r1 == r2)
  }

  ghost predicate Steady(s: Labels) {
    && Distinct(Names(s.detected)) && Exclusive(Names(s.detected)) && Exclusive(s.active)
    && Strict(s.timeline)
    && Traced(s.timeline, Origins(s.detected))
  }

  lemma {:induction false} DistinctAppend(a: seq<Label>, b: seq<Label>)
    requires Distinct(a) && Distinct(b) && forall l :: l in b ==> l !in a
    ensures Distinct(a + b)
  {
    forall i, j | 0 <= i < j < |a + b| ensures (a + b)[i] != (a + b)[j] {
      if i < |a| <= j {
        assert b[j - |a|] in b;
      }
    }
  }

  /** The detected list after a recording. */
  lemma {:induction false} RecordedNames(s: Labels, r: Recording)
    requires Distinct(Names(s.detected)) && Exclusive(Names(s.detected))
    ensures var kept, incoming := Existing(s.detected, r.raw), Incoming(s.detected, r.raw);
            && Origins(Record(s, r).detected) == Origins(kept) + Stamped(NotIn(incoming, Names(kept)), r.revision)
            && Names(Record(s, r).detected) == Names(kept) + NotIn(incoming, Names(kept))
    ensures Distinct(Names(Record(s, r).detected)) && Exclusive(Names(Record(s, r).detected))
  {
    var kept, incoming := Existing(s.detected, r.raw), Incoming(s.detected, r.raw);
    ExistingLabels(s.detected, r.raw);
    IncomingLabels(s.detected, r.raw);
    TouchAllOrigins(kept, incoming, r);
    NotInHolds(incoming, Names(kept));
    NotInIsDistinct(incoming, Names(kept));
    DistinctAppend(Names(kept), NotIn(incoming, Names(kept)));
    RecordedExclusive(s, r);
  }

  lemma {:induction false} RecordedExclusive(s: Labels, r: Recording)
    requires Distinct(Names(s.detected)) && Exclusive(Names(s.detected))
    ensures var kept, incoming := Existing(s.detected, r.raw), Incoming(s.detected, r.raw);
            Exclusive(Names(kept) + NotIn(incoming, Names(kept)))
  {
    var kept, incoming := Existing(s.detected, r.raw), Incoming(s.detected, r.raw);
    ExistingLabels(s.detected, r.raw);
    IncomingLabels(s.detected, r.raw);
    NotInHolds(incoming, Names(kept));
    if NoAction in incoming {
      assert Names(kept) == [];
      assert NotIn(incoming, Names(kept)) == [NoAction] by {
        assert [NoAction][..0] == [];
      }
    } else if NoAction in Names(kept) {
      assert incoming == [];
    }
  }

  lemma {:induction false} OriginsGrow(kept: seq<(Label, nat)>, newly: seq<Label>, revision: nat, l: Label, at: nat)
    ensures (l, at) in kept + Stamped(newly, revision) <==> (l, at) in kept || (at == revision && l in newly)
  {
  }

  /** Business origins survive a recording, and are joined by what is new in it. */
  lemma {:induction false} RecordedOrigin(s: Labels, r: Recording, l: Label, at: nat)
    requires Steady(s) && l != NoAction
    ensures (l, at) in Origins(Record(s, r).detected) <==>
      || (l, at) in Origins(s.detected)
      || (at == r.revision && l in Incoming(s.detected, r.raw) && l !in Names(s.detected))
  {
    var kept, incoming := Existing(s.detected, r.raw), Incoming(s.detected, r.raw);
    RecordedNames(s, r);
    ExistingLabels(s.detected, r.raw);
    NotInHolds(incoming, Names(kept));
    OriginsGrow(Origins(kept), NotIn(incoming, Names(kept)), r.revision, l, at);
  }

  lemma {:induction false} NothingIsKnown(ls: seq<Label>)
    ensures NotIn(ls, []) == ls
  {
    if ls != [] {
      NothingIsKnown(ls[..|ls| - 1]);
    }
  }

  lemma {:induction false} RecordedNoAction(s: Labels, r: Recording, at: nat)
    requires Steady(s)
    ensures (NoAction, at) in Origins(Record(s, r).detected) ==>
      (NoAction, at) in Origins(s.detected) || (at == r.revision && NoAction in Incoming(s.detected, r.raw))
    ensures Origins(Record(s, r).detected) == [] ==> Origins(s.detected) == [] && Incoming(s.detected, r.raw) == []
  {
    var kept, incoming := Existing(s.detected, r.raw), Incoming(s.detected, r.raw);
    RecordedNames(s, r);
    ExistingLabels(s.detected, r.raw);
    IncomingLabels(s.detected, r.raw);
    NotInHolds(incoming, Names(kept));
    OriginsGrow(Origins(kept), NotIn(incoming, Names(kept)), r.revision, NoAction, at);
    if Origins(Record(s, r).detected) == [] {
      assert Names(kept) == [];
      NothingIsKnown(incoming);
    }
  }

  lemma {:induction false} RecordTraced(s: Labels, r: Recording)
    requires Steady(s)
    ensures Traced(Record(s, r).timeline, Origins(Record(s, r).detected))
  {
    hide Record;
    var before, after := s.timeline, Record(s, r).timeline;
    forall l, revision: nat | l != NoAction
      ensures l in NewlyAt(after, revision) <==> (l, revision) in Origins(Record(s, r).detected)
    {
      RecordedNewly(s, r, revision, l);
      RecordedOrigin(s, r, l, revision);
    }
    forall revision: nat
      ensures (NoAction, revision) in Origins(Record(s, r).detected) ==> NoAction in NewlyAt(after, revision)
      ensures NoAction in NewlyAt(after, revision) ==> Origins(Record(s, r).detected) != []
      ensures NoAction in NewlyAt(after, revision) ==>
        && (NoAction in NewlyAt(before, revision) ==> s.detected != [])
        && (NoAction !in NewlyAt(before, revision) ==> revision == r.revision && s.detected == [])
    {
      RecordedNewly(s, r, revision, NoAction);
      RecordedNoAction(s, r, revision);
      IncomingLabels(s.detected, r.raw);
      if s.detected == [] {
        assert Names(s.detected) == [];
      }
    }
  }

  lemma {:induction false} RecordSteady(s: Labels, r: Recording)
    requires Steady(s)
    ensures Steady(Record(s, r))
  {
    RecordedNames(s, r);
    RecordedNewly(s, r, 0, NoAction);
    RecordTraced(s, r);
  }

  lemma {:induction false} RunSteady(acts: seq<Act>)
    ensures Steady(Run(NONE_YET, acts))
  {
    if acts != [] {
      RunSteady(acts[..|acts| - 1]);
      match acts[|acts| - 1]
      case Activate(raw) => CanonicalIsExclusive(raw);
      case Note(r) => RecordSteady(Run(NONE_YET, acts[..|acts| - 1]), r);
    }
  }

  // ----- The accumulation theorems -----

  /** What has been detected and is business, oldest first, with its first revision. */
  function BusinessOrigins(s: Labels): seq<(Label, nat)> {
    Origins(KeptBusiness(s.detected))
  }

  lemma {:induction false} RecordKeepsBusiness(s: Labels, r: Recording)
    requires Steady(s)
    ensures BusinessOrigins(s) <= BusinessOrigins(Record(s, r))
  {
    var kept, incoming := Existing(s.detected, r.raw), Incoming(s.detected, r.raw);
    RecordedNames(s, r);
    ExistingLabels(s.detected, r.raw);
    if NoAction in Names(s.detected) {
      assert s.detected[0].name == NoAction && s.detected[..0] == [];
      assert KeptBusiness(s.detected) == [];
    } else {
      AllBusinessIsKept(s.detected);
      IncomingLabels(s.detected, r.raw);
      if NoAction in incoming {
        assert Origins(s.detected) == [];
      } else {
        NotInHolds(incoming, Names(kept));
        AllBusinessIsKept(Record(s, r).detected);
      }
    }
  }

  lemma {:induction false} RunAppend(s: Labels, a: seq<Act>, b: seq<Act>)
    requires b != []
    ensures Run(s, a + b) == Do(Run(s, a + b[..|b| - 1]), b[|b| - 1])
  {
    hide Do;
    assert (a + b)[..|a + b| - 1] == a + b[..|b| - 1];
  }

  /** Nothing business is ever forgotten, reordered, or given another first revision. */
  lemma {:induction false} BusinessLabelsAreNeverForgotten(acts: seq<Act>, more: seq<Act>)
    ensures BusinessOrigins(Run(NONE_YET, acts)) <= BusinessOrigins(Run(NONE_YET, acts + more))
  {
    if more == [] {
      assert acts + more == acts;
    } else {
      BusinessLabelsAreNeverForgotten(acts, more[..|more| - 1]);
      RunAppend(NONE_YET, acts, more);
      RunSteady(acts + more[..|more| - 1]);
      var before := Run(NONE_YET, acts + more[..|more| - 1]);
      match more[|more| - 1]
      case Activate(raw) =>
      case Note(r) => RecordKeepsBusiness(before, r);
    }
  }

  /** Detected labels are distinct and `NoAction` stands alone; the timeline is strictly increasing. */
  lemma {:induction false} DetectedLabelsAreExclusive(acts: seq<Act>)
    ensures Distinct(Names(Run(NONE_YET, acts).detected)) && Exclusive(Names(Run(NONE_YET, acts).detected))
    ensures Strict(Run(NONE_YET, acts).timeline)
  {
    RunSteady(acts);
  }

  /**
    Each label is newly accumulated in at most one revision. For a business label that is the
    revision its entry calls first, and there is such a revision exactly if it has an entry.
   */
  lemma {:induction false} EachLabelIsNewOnce(acts: seq<Act>, l: Label, r1: nat, r2: nat)
    ensures var s := Run(NONE_YET, acts);
            && (l in NewlyAt(s.timeline, r1) && l in NewlyAt(s.timeline, r2) ==> r1 == r2)
            && (l != NoAction ==> (l in NewlyAt(s.timeline, r1) <==> (l, r1) in Origins(s.detected)))
  {
    var s := Run(NONE_YET, acts);
    RunSteady(acts);
    if l != NoAction && l in NewlyAt(s.timeline, r1) && l in NewlyAt(s.timeline, r2) {
      OneOrigin(s.detected, l, r1, r2);
    }
  }

  lemma {:induction false} OneOrigin(ds: seq<Detected>, l: Label, r1: nat, r2: nat)
    requires Distinct(Names(ds)) && (l, r1) in Origins(ds) && (l, r2) in Origins(ds)
    ensures r1 == r2
  {
  }
}
