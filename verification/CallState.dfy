/**
  The call state: coaching cards and detected labels under one roof. Admitting or
  updating a confirmed card with a label also records the label.
 */
module Calls {
  import opened Common
  import C = Coaching
  import L = CallLabels
  import StableSort

  datatype Call = Call(tenantId: C.Text, callId: C.Text, labels: L.Labels, board: C.Board,
                       coachingRevision: Option<nat>)

  /** A coaching event; `canonical` is the canonical form of its label, if it has one. */
  datatype Event = Event(tenantId: C.Text, callId: C.Text, id: C.Name, action: C.Text, priority: C.Priority,
                         source: C.Source, lifecycle: C.Lifecycle, labelId: Option<C.Name>,
                         canonical: Option<L.Label>, createdAt: int)

  /** The transcript revision and the model an event comes with. */
  datatype Context = Context(revision: nat, modelId: Option<C.Text>, profileId: Option<C.Text>)

  datatype Error = MaximumNotPositive | ScopeMismatch | NotActive

  function New(tenantId: C.Text, callId: C.Text): Call {
    Call(tenantId, callId, L.NONE_YET, C.EMPTY, None)
  }

  predicate SameScope(s: Call, e: Event) {
    e.tenantId == s.tenantId && e.callId == s.callId
  }

  function CardOf(e: Event, context: Context, displayOrder: nat): C.Card {
    var ruled := e.source == C.RULE;
    C.Card(e.id, e.action, e.priority, e.source, e.lifecycle, e.labelId, context.revision, displayOrder, e.createdAt,
           if ruled then None else context.modelId, if ruled then None else context.profileId)
  }

  function RecordingOf(e: Event, context: Context): L.Recording {
    L.Recording([e.canonical], context.revision, e.source, context.modelId, context.profileId, map[])
  }

  /** A confirmed card records its label and moves the coaching revision. */
  function Confirmed(s: Call, e: Event, context: Context): Call {
    if e.lifecycle != C.CONFIRMED then s
    else s.(labels := if e.labelId.Some? then L.Record(s.labels, RecordingOf(e, context)) else s.labels,
            coachingRevision := Some(context.revision))
  }

  function Admit(s: Call, e: Event, context: Context, maximum: int): Result<(Call, C.Verdict), Error> {
    if maximum <= 0 then Err(MaximumNotPositive)
    else if !SameScope(s, e) then Err(ScopeMismatch)
    else
      var (board, verdict) := C.Admit(s.board, CardOf(e, context, |s.board.cards|), maximum);
      if verdict.Refused? then Ok((s, verdict)) else Ok((Confirmed(s.(board := board), e, context), verdict))
  }

  function Update(s: Call, e: Event, context: Context): Result<Call, Error> {
    if !SameScope(s, e) then Err(ScopeMismatch)
    else
      var board := C.Update(s.board, CardOf(e, context, 0));
      if board.None? then Err(NotActive) else Ok(Confirmed(s.(board := board.value), e, context))
  }

  function Withdraw(s: Call, id: C.Text): (Call, bool) {
    var (board, found) := C.Withdraw(s.board, id);
    (s.(board := board), found)
  }

  // ----- Every run -----

  datatype Op =
    | OpAdmit(e: Event, context: Context, maximum: int)
    | OpUpdate(e: Event, context: Context)
    | OpWithdraw(id: C.Text)
    | OpRecord(r: L.Recording)
    | OpActivate(raw: seq<Option<L.Label>>)

  /** A refused or failed operation leaves the call as it was. */
  function Step(s: Call, op: Op): Call {
    match op
    case OpAdmit(e, context, maximum) =>
      var r := Admit(s, e, context, maximum);
      if r.Ok? then r.value.0 else s
    case OpUpdate(e, context) =>
      var r := Update(s, e, context);
      if r.Ok? then r.value else s
    case OpWithdraw(id) => Withdraw(s, id).0
    case OpRecord(r) => s.(labels := L.Record(s.labels, r))
    case OpActivate(raw) => s.(labels := s.labels.(active := L.Canonical(raw)))
  }

  function Run(s: Call, ops: seq<Op>): Call {
    if ops == [] then s else Step(Run(s, ops[..|ops| - 1]), ops[|ops| - 1])
  }

  /** Each admission brings an id the call has not shown. */
  ghost predicate FreshIds(s: Call, ops: seq<Op>) {
    ops == [] ||
    (var before, op := Run(s, ops[..|ops| - 1]), ops[|ops| - 1];
     FreshIds(s, ops[..|ops| - 1]) && (op.OpAdmit? ==> C.Fresh(before.board, op.e.id.text)))
  }

  ghost predicate Consistent(s: Call) {
    C.Tidy(s.board) && L.Steady(s.labels)
  }

  lemma {:induction false} ConfirmedConsistent(s: Call, e: Event, context: Context)
    requires Consistent(s)
    ensures Consistent(Confirmed(s, e, context))
  {
    L.RecordSteady(s.labels, RecordingOf(e, context));
  }

  lemma {:induction false} StepConsistent(s: Call, op: Op)
    requires Consistent(s) && (op.OpAdmit? ==> C.Fresh(s.board, op.e.id.text))
    ensures Consistent(Step(s, op))
  {
    hide C.Tidy;
    hide L.Steady;
    match op
    case OpAdmit(e, context, maximum) =>
      if maximum > 0 {
        var card := CardOf(e, context, |s.board.cards|);
        C.AdmitTidy(s.board, card, maximum);
        ConfirmedConsistent(s.(board := C.Admit(s.board, card, maximum).0), e, context);
      }
    case OpUpdate(e, context) =>
      C.UpdateTidy(s.board, CardOf(e, context, 0));
      var board := C.Update(s.board, CardOf(e, context, 0));
      if board.Some? {
        ConfirmedConsistent(s.(board := board.value), e, context);
      }
    case OpWithdraw(id) => C.WithdrawTidy(s.board, id);
    case OpRecord(r) => L.RecordSteady(s.labels, r);
    case OpActivate(raw) => ActivateSteady(s.labels, raw);
  }

  lemma {:induction false} ActivateSteady(s: L.Labels, raw: seq<Option<L.Label>>)
    requires L.Steady(s)
    ensures L.Steady(s.(active := L.Canonical(raw)))
  {
    L.CanonicalIsExclusive(raw);
  }

  /**
    Over any run of admissions with fresh ids, updates, withdrawals and recordings: the active
    cards are sorted by rank, appear once, and are among those shown; the detected labels are
    distinct and exclusive; and the timeline is increasing and traces every label.
   */
  lemma {:induction false} EveryRunIsConsistent(tenantId: C.Text, callId: C.Text, ops: seq<Op>)
    requires FreshIds(New(tenantId, callId), ops)
    ensures Consistent(Run(New(tenantId, callId), ops))
  {
    if ops != [] {
      EveryRunIsConsistent(tenantId, callId, ops[..|ops| - 1]);
      StepConsistent(Run(New(tenantId, callId), ops[..|ops| - 1]), ops[|ops| - 1]);
    }
  }

  // ----- The call object -----

  method CanonicalLabels(raw: seq<Option<L.Label>>) returns (labels: seq<L.Label>)
    ensures labels == L.Canonical(raw)
  {
    labels := [];
    var business := false;
    for i := 0 to |raw|
      invariant labels == L.FirstSeen(raw[..i])
      invariant business <==> L.Business(labels) != []
    {
      assert raw[..i + 1][..i] == raw[..i];
      if raw[i].Some? && raw[i].value !in labels {
        assert (labels + [raw[i].value])[..|labels|] == labels;
        labels := labels + [raw[i].value];
        business := business || raw[i].value != L.NoAction;
      }
    }
    assert raw[..|raw|] == raw;
    if business {
      labels := L.Business(labels);
    }
  }

  /** The dictionary of detected labels after each incoming label has been set in it. */
  method Accumulated(existing: seq<L.Detected>, incoming: seq<L.Label>, r: L.Recording)
    returns (byLabel: seq<L.Detected>)
    ensures byLabel == L.TouchAll(existing, incoming, r)
  {
    byLabel := existing;
    for i := 0 to |incoming|
      invariant byLabel == L.TouchAll(existing, incoming[..i], r)
    {
      assert incoming[..i + 1][..i] == incoming[..i];
      byLabel := L.Touch(byLabel, incoming[i], r);
    }
    assert incoming[..|incoming|] == incoming;
  }

  class CallState {
    const tenantId: C.Text
    const callId: C.Text
    var activeLabels: seq<L.Label>
    var detectedLabels: seq<L.Detected>
    var labelRevisionTimeline: seq<L.Diagnostic>
    var coachingSuggestions: seq<C.Card>
    var activeCoachingSuggestions: seq<C.Card>
    var coachingSuggestionHistory: seq<C.Card>
    var coachingTranscriptRevision: Option<nat>

    constructor (tenantId: C.Text, callId: C.Text)
      ensures Model() == New(tenantId, callId)
    {
      this.tenantId, this.callId := tenantId, callId;
      activeLabels, detectedLabels, labelRevisionTimeline := [], [], [];
      coachingSuggestions, activeCoachingSuggestions, coachingSuggestionHistory := [], [], [];
      coachingTranscriptRevision := None;
    }

    ghost function LabelsModel(): L.Labels
      reads this
    {
      L.Labels(activeLabels, detectedLabels, labelRevisionTimeline)
    }

    ghost function Model(): Call
      reads this
    {
      Call(tenantId, callId, LabelsModel(),
           C.Board(coachingSuggestions, activeCoachingSuggestions, coachingSuggestionHistory),
           coachingTranscriptRevision)
    }

    method UpdateActiveLabels(raw: seq<Option<L.Label>>)
      modifies this`activeLabels
      ensures Model() == Step(old(Model()), OpActivate(raw))
    {
      activeLabels := CanonicalLabels(raw);
    }

    method RecordDetectedLabels(r: L.Recording)
      modifies this`detectedLabels, this`labelRevisionTimeline
      ensures LabelsModel() == L.Record(old(LabelsModel()), r)
    {
      hide L.Canonical;
      hide L.TouchAll;
      hide L.NotIn;
      hide L.KeptBusiness;
      hide L.Upserted;
      hide L.AttestAll;
      hide L.OnceEach;
      var cleaned := CanonicalLabels(r.raw);
      var previously := L.Names(detectedLabels);
      var business := L.Business(cleaned);
      var incoming, byLabel: seq<L.Detected>;
      if business != [] {
        incoming, byLabel := business, L.KeptBusiness(detectedLabels);
      } else if detectedLabels != [] {
        incoming, byLabel := [], detectedLabels;
      } else {
        incoming, byLabel := cleaned, detectedLabels;
      }
      detectedLabels := Accumulated(byLabel, incoming, r);
      UpsertDiagnostic(incoming, L.NotIn(incoming, previously), r);
    }

    method UpsertDiagnostic(labels: seq<L.Label>, newly: seq<L.Label>, r: L.Recording)
      modifies this`labelRevisionTimeline
      ensures labelRevisionTimeline
           == L.Upserted(old(labelRevisionTimeline), L.DiagnosticFor(old(LabelsModel()), labels, newly, r))
    {
      hide L.Upserted;
      var existing := L.At(labelRevisionTimeline, r.revision);
      var evidence: seq<L.Evidence> := [];
      var already: seq<L.Label> := [];
      if existing.Some? {
        evidence, already := existing.value.evidence, existing.value.newly;
      }
      ghost var before := evidence;
      for i := 0 to |labels|
        invariant evidence == L.AttestAll(before, labels[..i], r)
      {
        assert labels[..i + 1][..i] == labels[..i];
        evidence := L.Attest(evidence, labels[i], r);
      }
      assert labels[..|labels|] == labels;
      var diagnostic := L.Diagnostic(r.revision, activeLabels, L.OnceEach(already + newly), evidence);
      labelRevisionTimeline := L.Upserted(labelRevisionTimeline, diagnostic);
    }

    /** The tail shared by an admission and an update. */
    method Confirm(e: Event, context: Context)
      modifies this`detectedLabels, this`labelRevisionTimeline, this`coachingTranscriptRevision
      ensures Model() == Confirmed(old(Model()), e, context)
    {
      if e.labelId.Some? && e.lifecycle == C.CONFIRMED {
        RecordDetectedLabels(RecordingOf(e, context));
      }
      if e.lifecycle == C.CONFIRMED {
        coachingTranscriptRevision := Some(context.revision);
      }
    }

    method AdmitCoachingSuggestion(e: Event, context: Context, maximum: int) returns (r: Result<C.Verdict, Error>)
      modifies this
      ensures match Admit(old(Model()), e, context, maximum)
              case Err(error) => r == Err(error) && Model() == old(Model())
              case Ok(outcome) => r == Ok(outcome.1) && Model() == outcome.0
    {
      hide C.RankOf;
      hide C.StrongerCard;
      hide StableSort.Sort;
      if maximum <= 0 {
        return Err(MaximumNotPositive);
      }
      if e.tenantId != tenantId || e.callId != callId {
        return Err(ScopeMismatch);
      }
      var candidate := CardOf(e, context, |coachingSuggestions|);
      var replaced: Option<C.Card> := None;
      if |activeCoachingSuggestions| >= maximum {
        var weakest := activeCoachingSuggestions[C.Weakest(activeCoachingSuggestions)];
        if !C.StrongerCard(candidate, weakest) {
          return Ok(C.Refused);
        }
        replaced := Some(weakest);
        activeCoachingSuggestions := C.Without(activeCoachingSuggestions, weakest.id.text);
        coachingSuggestionHistory := coachingSuggestionHistory + [weakest];
      }
      coachingSuggestions := coachingSuggestions + [candidate];
      activeCoachingSuggestions := StableSort.Sort(activeCoachingSuggestions + [candidate], C.StrongerCard);
      Confirm(e, context);
      return Ok(C.Admitted(replaced));
    }

    method UpdateCoachingSuggestion(e: Event, context: Context) returns (r: Result<(), Error>)
      modifies this
      ensures match Update(old(Model()), e, context)
              case Err(error) => r == Err(error) && Model() == old(Model())
              case Ok(call) => r == Ok(()) && Model() == call
    {
      if e.tenantId != tenantId || e.callId != callId {
        return Err(ScopeMismatch);
      }
      var existing := C.Find(activeCoachingSuggestions, e.id.text);
      if existing.None? {
        return Err(NotActive);
      }
      var updated := CardOf(e, context, existing.value.displayOrder).(id := existing.value.id);
      activeCoachingSuggestions :=
        StableSort.Sort(C.Replaced(activeCoachingSuggestions, e.id.text, updated), C.StrongerCard);
      coachingSuggestions := C.Replaced(coachingSuggestions, e.id.text, updated);
      Confirm(e, context);
      return Ok(());
    }

    method WithdrawCoachingSuggestion(id: C.Text) returns (found: bool)
      modifies this
      ensures (Model(), found) == Withdraw(old(Model()), id)
    {
      var active := C.Find(activeCoachingSuggestions, id);
      if active.None? {
        active := C.Find(coachingSuggestions, id);
      }
      if active.None? {
        return false;
      }
      var withdrawn := active.value.(lifecycle := C.WITHDRAWN);
      activeCoachingSuggestions := C.Without(activeCoachingSuggestions, id);
      coachingSuggestions := C.Replaced(coachingSuggestions, id, withdrawn);
      coachingSuggestionHistory := coachingSuggestionHistory + [withdrawn];
      return true;
    }
  }
}
