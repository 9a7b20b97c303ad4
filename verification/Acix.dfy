// Publishing a job to AnimeciX in two halves, multishare and multiple, from one saved record
// that confirm and unpublish edit.
module Acix {
  import opened Wrappers
  import opened Text

  datatype PublishState = Pending | Published | Failed

  datatype Half = Multishare | Multiple

  datatype ResetScope = OnlyMultiple | OnlyMultishare | BothHalves

  datatype Credits = Credits(tl: Option<string>, tlc: Option<string>, ts: Option<string>, qc: Option<string>)

  datatype Publish = Publish(
    name: string, malId: int, acixId: Option<int>, template: int, extra: string, credits: Option<Credits>)

  // The saved record; records from before the halves were tracked lack their states.
  datatype Record = Record(
    status: string, publish: Publish, drive: string,
    multishare: Option<PublishState>, multiple: Option<PublishState>,
    multishareError: Option<string>, multipleError: Option<string>)

  // A role is left alone (None), cleared (Some(None)) or replaced.
  datatype Overrides = Overrides(
    extra: Option<string>, tl: Option<Option<string>>, tlc: Option<Option<string>>,
    ts: Option<Option<string>>, qc: Option<Option<string>>, template: Option<int>, acixId: Option<int>)
  {
    predicate HasRole()
    {
      tl.Some? || tlc.Some? || ts.Some? || qc.Some?
    }

    predicate HasAny()
    {
      extra.Some? || template.Some? || HasRole()
    }
  }

  datatype Refusal = NoRecord | AlreadyPublished | AlreadyOut | Freeform | Unreachable(reason: string)
      | Incomplete(status: string)

  // What was sent for a half and under which title, and what unpublish forgot.
  datatype Act =
    | Sent(half: Half, extra: string, template: int, title: int, accepted: bool)
    | Forgotten(scope: ResetScope)

  function Covers(scope: ResetScope, half: Half): bool
  {
    scope == BothHalves || (scope == OnlyMultishare && half == Multishare)
    || (scope == OnlyMultiple && half == Multiple)
  }

  // A half's state, with the meaning an old record gives it.
  function StateOf(r: Record, half: Half): PublishState
  {
    match half
    case Multishare =>
      if r.multishare.Some? then r.multishare.value
      else if r.status == "published" then Published else Pending
    case Multiple => if r.multiple.Some? then r.multiple.value else Pending
  }

  function Summary(multishare: PublishState, multiple: PublishState): string
  {
    if multishare == Published && multiple == Published then "published"
    else if multishare == Published || multiple == Published then "partial"
    else if multishare == Failed || multiple == Failed then "failed"
    else "pending"
  }

  // Both out, one out, none out and one failed, or nothing yet.
  lemma SummarySays(multishare: PublishState, multiple: PublishState)
    ensures var out := (if multishare == Published then 1 else 0) + if multiple == Published then 1 else 0;
            Summary(multishare, multiple)
            == if out == 2 then "published" else if out == 1 then "partial"
               else if Failed in {multishare, multiple} then "failed" else "pending"
  {
  }

  // ---- The log ------------------------------------------------------------------------------

  // What AnimeciX last accepted for a half, unless an unpublish has covered it since.
  ghost function Live(log: seq<Act>, half: Half): Option<(string, int)>
  {
    if log == [] then None
    else
      var rest := Live(log[..|log| - 1], half);
      match log[|log| - 1]
      case Sent(h, extra, template, _, accepted) => if h == half && accepted then Some((extra, template)) else rest
      case Forgotten(scope) => if Covers(scope, half) then None else rest
  }

  lemma LiveAppend(log: seq<Act>, a: Act, half: Half)
    ensures Live(log + [a], half)
            == if a.Sent? && a.half == half && a.accepted then Some((a.extra, a.template))
               else if a.Forgotten? && Covers(a.scope, half) then None
               else Live(log, half)
  {
    assert (log + [a])[..|log|] == log;
  }

  // Nothing is sent for a half that is live.
  ghost predicate NeverTwice(log: seq<Act>)
  {
    forall k :: 0 <= k < |log| && log[k].Sent? ==> Live(log[..k], log[k].half).None?
  }

  lemma NeverTwiceAppend(log: seq<Act>, a: Act)
    requires NeverTwice(log) && (a.Sent? ==> Live(log, a.half).None?)
    ensures NeverTwice(log + [a])
  {
    var more := log + [a];
    forall k | 0 <= k < |more| && more[k].Sent? ensures Live(more[..k], more[k].half).None? {
      assert more[..k] == log[..k];
      if k == |log| { assert log[..k] == log; }
    }
  }

  lemma {:induction false} StaysLive(log: seq<Act>, half: Half, a: nat, b: nat)
    requires a < b <= |log| && log[a].Sent? && log[a].half == half && log[a].accepted
    requires forall k :: a < k < b ==> !(log[k].Forgotten? && Covers(log[k].scope, half))
    ensures Live(log[..b], half).Some?
  {
    assert log[..b] == log[..b - 1] + [log[b - 1]];
    LiveAppend(log[..b - 1], log[b - 1], half);
    if a < b - 1 { StaysLive(log, half, a, b - 1); }
  }

  // A half is sent again after a success only if an unpublish that covers it lies between.
  lemma ResentOnlyAfterUnpublish(log: seq<Act>, a: nat, b: nat)
    requires NeverTwice(log) && a < b < |log|
    requires log[a].Sent? && log[a].accepted && log[b].Sent? && log[b].half == log[a].half
    ensures exists k :: a < k < b && log[k].Forgotten? && Covers(log[k].scope, log[a].half)
  {
    if forall k :: a < k < b ==> !(log[k].Forgotten? && Covers(log[k].scope, log[a].half)) {
      StaysLive(log, log[a].half, a, b);
    }
  }

  // ---- The invariant ------------------------------------------------------------------------

  // A half is marked Published exactly when it is live, and then with the record's present
  // credits line and fansub.
  ghost predicate InStep(r: Record, log: seq<Act>)
  {
    && NeverTwice(log)
    && forall half :: Live(log, half) ==
           if StateOf(r, half) == Published then Some((r.publish.extra, r.publish.template)) else None
  }

  // Two published halves were sent with the same credits line and fansub.
  lemma HalvesAgree(r: Record, log: seq<Act>)
    requires InStep(r, log) && StateOf(r, Multishare) == Published && StateOf(r, Multiple) == Published
    ensures Live(log, Multishare).Some? && Live(log, Multishare) == Live(log, Multiple)
  {
    assert Live(log, Multishare) == Some((r.publish.extra, r.publish.template));
  }

  // ---- The record in memory -----------------------------------------------------------------

  function RoleAfter(role: Option<string>, change: Option<Option<string>>): Option<string>
  {
    if change.Some? then change.value else role
  }

  function CreditsAfter(c: Credits, o: Overrides): Credits
  {
    Credits(RoleAfter(c.tl, o.tl), RoleAfter(c.tlc, o.tlc), RoleAfter(c.ts, o.ts), RoleAfter(c.qc, o.qc))
  }

  predicate Credited(role: Option<string>)
  {
    role.Some? && Trim(role.value) != "" && Trim(role.value) != "---"
  }

  function JoinNames(names: seq<string>): string
  {
    if names == [] then "" else if |names| == 1 then names[0] else names[0] + " & " + JoinNames(names[1..])
  }

  function NamesOf(roles: seq<Option<string>>): seq<string>
  {
    if roles == [] then []
    else (if Credited(roles[0]) then [Trim(roles[0].value)] else []) + NamesOf(roles[1..])
  }

  // The credits line of the four roles.
  function ExtraOf(c: Credits): string
  {
    JoinNames(NamesOf([c.tl, c.tlc, c.ts, c.qc]))
  }

  // The record after an edit: freeform credits take no role edits. legacy reads the roles off an
  // old credits line.
  function Edited(p: Publish, o: Overrides, legacy: string -> Option<Credits>): Option<Publish>
  {
    var q := p.(template := o.template.GetOr(p.template));
    if o.extra.Some? then Some(q.(extra := o.extra.value, credits := None))
    else if !o.HasRole() then Some(q)
    else
      var base := if p.credits.Some? then p.credits else legacy(p.extra);
      if base.None? then None
      else Some(q.(extra := ExtraOf(CreditsAfter(base.value, o)), credits := Some(CreditsAfter(base.value, o))))
  }

  // ---- Edits, field by field ----------------------------------------------------------------

  // A role's name with the separator after it, and nothing for a role nobody is credited for.
  function Piece(role: Option<string>): string
  {
    if Credited(role) then Trim(role.value) + " & " else ""
  }

  // The credited roles in their order with separators between them.
  predicate IsLine(line: string, c: Credits)
  {
    if Credited(c.tl) || Credited(c.tlc) || Credited(c.ts) || Credited(c.qc) then
      line + " & " == Piece(c.tl) + Piece(c.tlc) + Piece(c.ts) + Piece(c.qc)
    else line == ""
  }

  function Pieces(roles: seq<Option<string>>): string
  {
    if roles == [] then "" else Piece(roles[0]) + Pieces(roles[1..])
  }

  lemma {:induction false} JoinedPieces(roles: seq<Option<string>>)
    ensures NamesOf(roles) == [] <==> forall i :: 0 <= i < |roles| ==> !Credited(roles[i])
    ensures NamesOf(roles) == [] ==> Pieces(roles) == ""
    ensures NamesOf(roles) != [] ==> JoinNames(NamesOf(roles)) + " & " == Pieces(roles)
  {
    if roles != [] {
      JoinedPieces(roles[1..]);
      assert forall i :: 0 < i < |roles| ==> roles[i] == roles[1..][i - 1];
      var names, rest := NamesOf(roles), NamesOf(roles[1..]);
      if Credited(roles[0]) {
        assert names[1..] == rest;
        if rest == [] {
          assert Pieces(roles) == Trim(roles[0].value) + " & ";
        } else {
          assert JoinNames(names) + " & " == Trim(roles[0].value) + " & " + (JoinNames(rest) + " & ");
        }
      } else {
        assert names == rest;
      }
    }
  }

  lemma FourPieces(c: Credits)
    ensures Pieces([c.tl, c.tlc, c.ts, c.qc]) == Piece(c.tl) + Piece(c.tlc) + Piece(c.ts) + Piece(c.qc)
  {
    assert [c.tl, c.tlc, c.ts, c.qc][1..] == [c.tlc, c.ts, c.qc];
    assert [c.tlc, c.ts, c.qc][1..] == [c.ts, c.qc] && [c.ts, c.qc][1..] == [c.qc] && [c.qc][1..] == [];
    assert Pieces([c.qc]) == Piece(c.qc);
    assert Pieces([c.ts, c.qc]) == Piece(c.ts) + Piece(c.qc);
    assert Pieces([c.tlc, c.ts, c.qc]) == Piece(c.tlc) + (Piece(c.ts) + Piece(c.qc));
  }

  lemma ExtraIsLine(c: Credits)
    ensures IsLine(ExtraOf(c), c)
  {
    var roles := [c.tl, c.tlc, c.ts, c.qc];
    JoinedPieces(roles);
    FourPieces(c);
    assert Credited(roles[0]) || Credited(roles[1]) || Credited(roles[2]) || Credited(roles[3])
        <==> exists i :: 0 <= i < |roles| && Credited(roles[i]);
  }

  // The roles a role edit starts from.
  function RolesOf(p: Publish, legacy: string -> Option<Credits>): Option<Credits>
  {
    if p.credits.Some? then p.credits else legacy(p.extra)
  }

  // A role is what the edit says, or what it was.
  ghost predicate RoleEdited(before: Option<string>, change: Option<Option<string>>, after: Option<string>)
  {
    (change.Some? ==> after == change.value) && (change.None? ==> after == before)
  }

  ghost predicate RolesEdited(before: Credits, o: Overrides, after: Credits)
  {
    && RoleEdited(before.tl, o.tl, after.tl) && RoleEdited(before.tlc, o.tlc, after.tlc)
    && RoleEdited(before.ts, o.ts, after.ts) && RoleEdited(before.qc, o.qc, after.qc)
  }

  // The credits line an edit asks for: the given one, the old one, or that of the edited roles.
  ghost predicate LineEdited(p: Publish, o: Overrides, legacy: string -> Option<Credits>, line: string,
                             credits: Option<Credits>)
  {
    && (o.extra.Some? ==> line == o.extra.value && credits.None?)
    && (o.extra.None? && !o.HasRole() ==> line == p.extra && credits == p.credits)
    && (o.extra.None? && o.HasRole() ==>
          && RolesOf(p, legacy).Some? && credits.Some? && RolesEdited(RolesOf(p, legacy).value, o, credits.value)
          && IsLine(line, credits.value))
  }

  // Every field of the record after the edits.
  ghost predicate EditedTo(p: Publish, o: Overrides, legacy: string -> Option<Credits>, p': Publish)
  {
    && p'.name == p.name && p'.malId == p.malId
    && p'.acixId == (if o.acixId.Some? then o.acixId else p.acixId)
    && p'.template == (if o.template.Some? then o.template.value else p.template)
    && LineEdited(p, o, legacy, p'.extra, p'.credits)
  }

  // Edits of a record one half of which is out, and role edits of credits nobody can read.
  predicate ComesTooLate(r: Record, o: Overrides)
  {
    o.HasAny() && (StateOf(r, Multishare) == Published || StateOf(r, Multiple) == Published)
  }

  predicate Unreadable(r: Record, o: Overrides, legacy: string -> Option<Credits>)
  {
    o.extra.None? && o.HasRole() && RolesOf(r.publish, legacy).None?
  }

  function WithTitle(p: Publish, o: Overrides): Publish
  {
    if o.acixId.Some? then p.(acixId := o.acixId) else p
  }

  lemma EditedFields(p: Publish, o: Overrides, legacy: string -> Option<Credits>)
    ensures var edited := Edited(WithTitle(p, o), o, legacy);
            && (edited.Some? ==> EditedTo(p, o, legacy, edited.value))
            && (edited.None? <==> o.extra.None? && o.HasRole() && RolesOf(p, legacy).None?)
  {
    if o.extra.None? && o.HasRole() && RolesOf(p, legacy).Some? {
      ExtraIsLine(CreditsAfter(RolesOf(p, legacy).value, o));
    }
  }

  lemma NothingEdited(p: Publish, o: Overrides, legacy: string -> Option<Credits>)
    requires !o.HasAny()
    ensures EditedTo(p, o, legacy, WithTitle(p, o))
  {
  }

  // ---- What a confirm sends -----------------------------------------------------------------

  // The title's id the sends go to, if it is known or found.
  ghost predicate TitleIs(p: Publish, w: World, title: int)
  {
    && w.client.None?
    && (p.acixId.Some? ==> title == p.acixId.value)
    && (p.acixId.None? ==> w.found == Ok(Some(title)))
  }

  // Each half that is not out yet, multishare first; multiple only with public links.
  ghost function SendsOf(before: Record, p: Publish, title: int, w: World): seq<Act>
  {
    (if StateOf(before, Multishare) == Published then []
     else [Sent(Multishare, p.extra, p.template, title, w.multishare.None?)])
    + (if StateOf(before, Multiple) == Published || w.links.Some? then []
       else [Sent(Multiple, p.extra, p.template, title, w.multiple.None?)])
  }

  // One half of them.
  ghost function SendOf(before: Record, half: Half, p: Publish, title: int, unsent: bool, accepted: bool): seq<Act>
  {
    if StateOf(before, half) == Published || unsent then [] else [Sent(half, p.extra, p.template, title, accepted)]
  }

  ghost function StateAfter(before: Record, half: Half, accepted: bool): PublishState
  {
    if StateOf(before, half) == Published || accepted then Published else Failed
  }

  lemma SentInTurn(before: Record, between: Record, after: Record, log0: seq<Act>, log1: seq<Act>, log2: seq<Act>,
                   p: Publish, title: int, w: World)
    requires log1 == log0 + SendOf(before, Multishare, p, title, false, w.multishare.None?)
    requires StateOf(between, Multishare) == StateAfter(before, Multishare, w.multishare.None?)
    requires StateOf(between, Multiple) == StateOf(before, Multiple)
    requires log2 == log1 + SendOf(between, Multiple, p, title, w.links.Some?, w.multiple.None?)
    requires StateOf(after, Multishare) == StateOf(between, Multishare)
    requires StateOf(after, Multiple) == StateAfter(between, Multiple, w.links.None? && w.multiple.None?)
    ensures log2 == log0 + SendsOf(before, p, title, w) && StatesAfter(before, after, w)
  {
  }

  // A half that was out stays so; another is out when its send was accepted, and failed otherwise.
  ghost predicate StatesAfter(before: Record, after: Record, w: World)
  {
    && StateOf(after, Multishare)
       == (if StateOf(before, Multishare) == Published || w.multishare.None? then Published else Failed)
    && StateOf(after, Multiple)
       == (if StateOf(before, Multiple) == Published || (w.links.None? && w.multiple.None?) then Published else Failed)
  }

  ghost predicate Delivers(before: Record, after: Record, log: seq<Act>, log': seq<Act>, w: World, title: int)
  {
    && TitleIs(after.publish, w, title) && StatesAfter(before, after, w)
    && log' == log + SendsOf(before, after.publish, title, w)
  }

  // Without a client or a title nothing is sent, and what was not out has failed.
  ghost predicate FailsUnsent(before: Record, after: Record, log: seq<Act>, log': seq<Act>)
  {
    && log' == log
    && forall half :: StateOf(after, half) == if StateOf(before, half) == Published then Published else Failed
  }

  // The sends, if there is a client and a title.
  ghost predicate Attempts(before: Record, after: Record, log: seq<Act>, log': seq<Act>, w: World,
                           r: Result<string, Refusal>)
  {
    if exists title :: TitleIs(after.publish, w, title) then
      exists title :: Delivers(before, after, log, log', w, title)
    else
      && r.Err? && r.error.Unreachable? && (w.client.Some? ==> r.error.reason == w.client.value)
      && FailsUnsent(before, after, log, log')
  }

  lemma AttemptsAlike(before: Record, before': Record, after: Record, log: seq<Act>, log': seq<Act>, w: World,
                      r: Result<string, Refusal>)
    requires Attempts(before, after, log, log', w, r)
    requires forall half :: StateOf(before, half) == StateOf(before', half)
    ensures Attempts(before', after, log, log', w, r)
  {
    if exists title :: TitleIs(after.publish, w, title) {
      var title :| Delivers(before, after, log, log', w, title);
      assert Delivers(before', after, log, log', w, title);
    }
  }

  method ApplyRoles(c: Credits, o: Overrides) returns (credits: Credits)
    ensures credits == CreditsAfter(c, o)
  {
    credits := c;
    if o.tl.Some? { credits := credits.(tl := o.tl.value); }
    if o.tlc.Some? { credits := credits.(tlc := o.tlc.value); }
    if o.ts.Some? { credits := credits.(ts := o.ts.value); }
    if o.qc.Some? { credits := credits.(qc := o.qc.value); }
  }

  method EditPublish(p: Publish, o: Overrides, legacy: string -> Option<Credits>) returns (edited: Option<Publish>)
    ensures edited == Edited(p, o, legacy)
  {
    var publish := p;
    if o.template.Some? {
      publish := publish.(template := o.template.value);
    }
    if o.extra.Some? {
      return Some(publish.(extra := o.extra.value, credits := None));
    }
    if !o.HasRole() { return Some(publish); }
    var base := if publish.credits.Some? then publish.credits else legacy(publish.extra);
    if base.None? { return None; }
    var credits := ApplyRoles(base.value, o);
    edited := Some(publish.(extra := ExtraOf(credits), credits := Some(credits)));
  }

  class AcixPending {
    var status: string
    var publish: Publish
    var drive: string
    var multishare: Option<PublishState>
    var multiple: Option<PublishState>
    var multishareError: Option<string>
    var multipleError: Option<string>

    function Saved(): Record
      reads this
    {
      Record(status, publish, drive, multishare, multiple, multishareError, multipleError)
    }

    // A half is marked Published.
    ghost predicate Is(half: Half)
      reads this
    {
      StateOf(Saved(), half) == Published
    }

    // Both states are known and the status sums them up.
    ghost predicate Settled()
      reads this
    {
      multishare.Some? && multiple.Some? && status == Summary(multishare.value, multiple.value)
    }

    constructor (r: Record)
      ensures Saved() == r
    {
      status, publish, drive := r.status, r.publish, r.drive;
      multishare, multiple := r.multishare, r.multiple;
      multishareError, multipleError := r.multishareError, r.multipleError;
    }

    // A record as it is first queued.
    constructor New(publish: Publish, drive: string)
      ensures Saved() == Record("pending", publish, drive, Some(Pending), Some(Pending), None, None)
    {
      status, this.publish, this.drive := "pending", publish, drive;
      multishare, multiple := Some(Pending), Some(Pending);
      multishareError, multipleError := None, None;
    }

    method RefreshStatus()
      modifies `status
      ensures status == Summary(multishare.GetOr(Pending), multiple.GetOr(Pending))
    {
      var first, second := multishare.GetOr(Pending), multiple.GetOr(Pending);
      if first == Published && second == Published {
        status := "published";
      } else if first == Published || second == Published {
        status := "partial";
      } else if first == Failed || second == Failed {
        status := "failed";
      } else {
        status := "pending";
      }
    }

    // Upgrading keeps what each half's state means, so a half published long ago stays so.
    method UpgradeLegacyState()
      modifies `multishare, `multiple, `status
      ensures Settled() && forall half :: StateOf(Saved(), half) == old(StateOf(Saved(), half))
    {
      if multishare.None? {
        multishare := Some(if status == "published" then Published else Pending);
      }
      if multiple.None? {
        multiple := Some(Pending);
      }
      RefreshStatus();
    }

    predicate FullyPublished()
      reads this
    {
      multishare == Some(Published) && multiple == Some(Published)
    }

    method ResetPublishState(scope: ResetScope)
      requires Settled()
      modifies this
      ensures Settled() && publish == old(publish) && drive == old(drive)
      ensures forall half ::
                  StateOf(Saved(), half) == if Covers(scope, half) then Pending else old(StateOf(Saved(), half))
    {
      if scope == OnlyMultishare || scope == BothHalves {
        multishare := Some(Pending);
        multishareError := None;
      }
      if scope == OnlyMultiple || scope == BothHalves {
        multiple := Some(Pending);
        multipleError := None;
      }
      RefreshStatus();
    }

    // Edits are refused once either half is out.
    method ApplyOverrides(o: Overrides, legacy: string -> Option<Credits>) returns (r: Result<bool, Refusal>)
      requires Settled()
      modifies `publish
      ensures r.Ok? <==> !o.HasAny() || (!Is(Multishare) && !Is(Multiple) && Edited(old(publish), o, legacy).Some?)
      ensures r.Err? ==> publish == old(publish)
                         && r.error == if Is(Multishare) || Is(Multiple) then AlreadyOut else Freeform
      ensures r.Ok? ==> publish == if o.HasAny() then Edited(old(publish), o, legacy).value else old(publish)
    {
      if !o.HasAny() { return Ok(true); }
      if multishare == Some(Published) || multiple == Some(Published) {
        return Err(AlreadyOut);
      }
      var edited := EditPublish(publish, o, legacy);
      if edited.None? {
        return Err(Freeform);
      }
      publish := edited.value;
      r := Ok(true);
    }

    method MarkSharedFailure(error: string)
      requires Settled()
      modifies this
      ensures multishare.Some? && multiple.Some? && publish == old(publish) && drive == old(drive)
      ensures forall half :: StateOf(Saved(), half) == if old(Is(half)) then Published else Failed
    {
      if multishare != Some(Published) {
        multishare, multishareError := Some(Failed), Some(error);
      }
      if multiple != Some(Published) {
        multiple, multipleError := Some(Failed), Some(error);
      }
    }

    // The outcome of sending a half.
    method Mark(half: Half, error: Option<string>)
      requires multishare.Some? && multiple.Some?
      modifies this
      ensures multishare.Some? && multiple.Some? && publish == old(publish) && drive == old(drive)
      ensures forall h :: StateOf(Saved(), h) ==
                  if h != half then old(StateOf(Saved(), h)) else if error.None? then Published else Failed
    {
      var outcome := Some(if error.None? then Published else Failed);
      if half == Multishare {
        multishare, multishareError := outcome, error;
      } else {
        multiple, multipleError := outcome, error;
      }
    }
  }

  // ---- The calls ----------------------------------------------------------------------------

  // What the world answers during one confirm: the client, the title search, the two sends and
  // the public links.
  datatype World = World(
    client: Option<string>, found: Result<Option<int>, string>, multishare: Option<string>,
    links: Option<string>, multiple: Option<string>)

  datatype Call = Confirm(overrides: Overrides, world: World) | Unpublish(scope: ResetScope)

  class Service {
    var row: Option<Record>
    const legacy: string -> Option<Credits>
    ghost var log: seq<Act>

    ghost predicate Valid()
      reads this
    {
      row.Some? ==> InStep(row.value, log)
    }

    // A fresh record, or an old one whose published half was sent as the record says.
    constructor (row: Option<Record>, legacy: string -> Option<Credits>, ghost log: seq<Act>)
      requires row.Some? ==> InStep(row.value, log)
      ensures Valid() && this.row == row && this.log == log
    {
      this.row, this.legacy := row, legacy;
      this.log := log;
    }

    method Persist(pending: AcixPending)
      requires pending.multishare.Some? && pending.multiple.Some?
      modifies `row, pending`status
      ensures row == Some(pending.Saved()) && pending.Settled()
      ensures forall half :: StateOf(pending.Saved(), half) == old(StateOf(pending.Saved(), half))
    {
      pending.RefreshStatus();
      row := Some(pending.Saved());
    }

    method UnpublishAcix(scope: ResetScope) returns (r: Result<string, Refusal>)
      requires Valid()
      modifies `row, `log
      ensures Valid()
      ensures r.Ok? <==> old(row).Some?
      ensures r.Err? ==> row == old(row) && log == old(log)
      ensures r.Ok? ==> log == old(log) + [Forgotten(scope)] && row.Some?
      ensures r.Ok? ==> row.value.publish == old(row).value.publish
                        && forall half :: StateOf(row.value, half) ==
                               if Covers(scope, half) then Pending else StateOf(old(row).value, half)
    {
      if row.None? { return Err(NoRecord); }
      var pending := new AcixPending(row.value);
      pending.UpgradeLegacyState();
      pending.ResetPublishState(scope);
      Persist(pending);
      forall half ensures Live(log + [Forgotten(scope)], half) ==
          if Covers(scope, half) then None else Live(log, half) {
        LiveAppend(log, Forgotten(scope), half);
      }
      NeverTwiceAppend(log, Forgotten(scope));
      log := log + [Forgotten(scope)];
      r := Ok(pending.status);
    }

    // Sends one half unless it is published, and saves the outcome.
    method SendHalf(pending: AcixPending, half: Half, title: int, failure: Option<string>)
      requires InStep(pending.Saved(), log) && pending.Settled()
      modifies `row, `log, pending
      ensures InStep(pending.Saved(), log) && pending.Settled() && pending.publish == old(pending.publish)
      ensures old(pending.Is(half)) ==> log == old(log) && row == old(row) && pending.Saved() == old(pending.Saved())
      ensures !old(pending.Is(half)) ==>
                && log == old(log) + [Sent(half, pending.publish.extra, pending.publish.template, title, failure.None?)]
                && row == Some(pending.Saved())
                && StateOf(pending.Saved(), half) == if failure.None? then Published else Failed
      ensures forall h :: h != half ==> StateOf(pending.Saved(), h) == old(StateOf(pending.Saved(), h))
    {
      var state := if half == Multishare then pending.multishare else pending.multiple;
      if state == Some(Published) { return; }
      var a := Sent(half, pending.publish.extra, pending.publish.template, title, failure.None?);
      forall h ensures Live(log + [a], h) ==
          if h == half && failure.None? then Some((a.extra, a.template)) else Live(log, h) {
        LiveAppend(log, a, h);
      }
      assert Live(log, half).None?;
      NeverTwiceAppend(log, a);
      log := log + [a];
      pending.Mark(half, failure);
      Persist(pending);
      assert forall h :: StateOf(pending.Saved(), h) ==
                 if h != half then old(StateOf(pending.Saved(), h)) else if failure.None? then Published else Failed;
    }

    // The multiple half fails unsent when the job has no public links.
    method FailUnsent(pending: AcixPending, half: Half, error: string)
      requires InStep(pending.Saved(), log) && pending.Settled() && !pending.Is(half)
      modifies `row, pending
      ensures InStep(pending.Saved(), log) && pending.Settled() && row == Some(pending.Saved())
      ensures pending.publish == old(pending.publish)
      ensures forall h :: StateOf(pending.Saved(), h) == if h == half then Failed else old(StateOf(pending.Saved(), h))
    {
      pending.Mark(half, Some(error));
      Persist(pending);
    }

    // The edits before anything is sent.
    method Prepare(pending: AcixPending, o: Overrides) returns (r: Result<bool, Refusal>)
      requires Valid() && row.Some? && InStep(pending.Saved(), log) && pending.Settled()
      requires pending.publish == row.value.publish
      requires forall half :: StateOf(pending.Saved(), half) == StateOf(row.value, half)
      modifies `row, pending
      ensures Valid() && row.Some? && pending.Settled()
      ensures forall half :: StateOf(pending.Saved(), half) == StateOf(row.value, half) == old(StateOf(row.value, half))
      ensures r.Ok? ==> InStep(pending.Saved(), log) && EditedTo(old(row).value.publish, o, legacy, pending.publish)
      ensures r.Ok? <==> !ComesTooLate(old(row).value, o) && !Unreadable(old(row).value, o, legacy)
      ensures r.Err? ==> r.error == (if ComesTooLate(old(row).value, o) then AlreadyOut else Freeform)
                         && row.value.publish == WithTitle(old(row).value.publish, o)
    {
      EditedFields(pending.publish, o, legacy);
      if o.acixId.Some? {
        pending.publish := pending.publish.(acixId := o.acixId);
        Persist(pending);
      }
      if o.HasAny() {
        r := pending.ApplyOverrides(o, legacy);
        if r.Err? { return; }
        Persist(pending);
      } else {
        NothingEdited(old(row).value.publish, o, legacy);
      }
      r := Ok(true);
    }

    // Neither half can go out: no client, or no title.
    method FailBoth(pending: AcixPending, error: string)
      requires InStep(pending.Saved(), log) && pending.Settled()
      modifies `row, pending
      ensures InStep(pending.Saved(), log) && row == Some(pending.Saved()) && pending.publish == old(pending.publish)
      ensures forall half :: StateOf(pending.Saved(), half) == if old(pending.Is(half)) then Published else Failed
    {
      pending.MarkSharedFailure(error);
      Persist(pending);
    }

    // The title's id: the record's own, or the search's.
    method ResolveTitle(pending: AcixPending, w: World) returns (r: Result<int, string>)
      ensures r.Ok? ==> TitleIs(pending.publish, w, r.value)
      ensures r.Err? ==> forall title :: !TitleIs(pending.publish, w, title)
      ensures w.client.Some? ==> r == Err(w.client.value)
    {
      if w.client.Some? { return Err(w.client.value); }
      if pending.publish.acixId.Some? { return Ok(pending.publish.acixId.value); }
      match w.found
      case Ok(Some(id)) => r := Ok(id);
      case Ok(None) => r := Err("no match");
      case Err(e) => r := Err(e);
    }

    // The multiple half, unless it is published; it needs the job's public links.
    method SendMultiple(pending: AcixPending, title: int, w: World)
      requires InStep(pending.Saved(), log) && pending.Settled()
      requires !pending.Is(Multiple) || row == Some(pending.Saved())
      modifies `row, `log, pending
      ensures InStep(pending.Saved(), log) && pending.Settled() && row == Some(pending.Saved())
      ensures pending.publish == old(pending.publish)
      ensures StateOf(pending.Saved(), Multishare) == old(StateOf(pending.Saved(), Multishare))
      ensures StateOf(pending.Saved(), Multiple)
              == StateAfter(old(pending.Saved()), Multiple, w.links.None? && w.multiple.None?)
      ensures log == old(log)
              + SendOf(old(pending.Saved()), Multiple, old(pending.publish), title, w.links.Some?, w.multiple.None?)
    {
      if pending.multiple == Some(Published) { return; }
      if w.links.Some? {
        FailUnsent(pending, Multiple, w.links.value);
      } else {
        SendHalf(pending, Multiple, title, w.multiple);
      }
    }

    // Both halves in turn.
    method SendBoth(pending: AcixPending, title: int, w: World)
      requires Valid() && row.Some? && InStep(pending.Saved(), log) && pending.Settled()
      requires !pending.Is(Multishare) || !pending.Is(Multiple)
      modifies `row, `log, pending
      ensures InStep(pending.Saved(), log) && row == Some(pending.Saved()) && pending.Settled()
      ensures pending.publish == old(pending.publish)
      ensures log == old(log) + SendsOf(old(pending.Saved()), old(pending.publish), title, w)
      ensures StatesAfter(old(pending.Saved()), pending.Saved(), w)
    {
      ghost var before, sent := pending.Saved(), log;
      SendHalf(pending, Multishare, title, w.multishare);
      ghost var between, first := pending.Saved(), log;
      SendMultiple(pending, title, w);
      SentInTurn(before, between, pending.Saved(), sent, first, log, before.publish, title, w);
    }

    // Success means both are published.
    method Outcome(pending: AcixPending) returns (r: Result<string, Refusal>)
      requires pending.Settled()
      ensures r == if pending.Is(Multishare) && pending.Is(Multiple) then Ok(pending.status)
                   else Err(Incomplete(pending.status))
    {
      if pending.FullyPublished() {
        r := Ok(pending.status);
      } else {
        r := Err(Incomplete(pending.status));
      }
    }

    // The title, and then the sends.
    method Deliver(pending: AcixPending, w: World) returns (r: Result<string, Refusal>)
      requires Valid() && row.Some? && InStep(pending.Saved(), log) && pending.Settled()
      requires !pending.Is(Multishare) || !pending.Is(Multiple)
      modifies `row, `log, pending
      ensures Valid() && row == Some(pending.Saved()) && pending.publish == old(pending.publish) && old(log) <= log
      ensures Attempts(old(pending.Saved()), pending.Saved(), old(log), log, w, r)
      ensures r.Ok? <==> pending.Is(Multishare) && pending.Is(Multiple)
    {
      var title := ResolveTitle(pending, w);
      if title.Err? {
        FailBoth(pending, title.error);
        return Err(Unreachable(title.error));
      }
      ghost var before := pending.Saved();
      SendBoth(pending, title.value, w);
      r := Outcome(pending);
      assert Delivers(before, pending.Saved(), old(log), log, w, title.value);
    }

    // confirm_acix_with_overrides
    method ConfirmAcix(o: Overrides, w: World) returns (r: Result<string, Refusal>)
      requires Valid()
      modifies `row, `log
      ensures Valid() && old(log) <= log
      ensures r.Ok? <==> row.Some? && !Out(old(row)) && Out(row)
      ensures old(row).None? ==> r == Err(NoRecord) && row == old(row) && log == old(log)
      ensures Out(old(row)) ==> r == Err(AlreadyPublished) && row == old(row) && log == old(log)
      ensures old(row).Some? && !Out(old(row)) ==>
                row.Some? && Answers(old(row).value, row.value, old(log), log, o, w, r)
    {
      if row.None? { return Err(NoRecord); }
      var pending := new AcixPending(row.value);
      pending.UpgradeLegacyState();
      if pending.FullyPublished() { return Err(AlreadyPublished); }
      var prepared := Prepare(pending, o);
      if prepared.Err? { return Err(prepared.error); }
      ghost var edited := pending.Saved();
      r := Deliver(pending, w);
      AttemptsAlike(edited, old(row).value, row.value, old(log), log, w, r);
    }

    // Both halves are published.
    ghost predicate Out(row: Option<Record>)
    {
      row.Some? && StateOf(row.value, Multishare) == Published && StateOf(row.value, Multiple) == Published
    }

    // Late or unreadable edits are refused and nothing is sent; otherwise the record is edited
    // field by field, and the sends carry what it says then, or there are none to make.
    ghost predicate Answers(before: Record, after: Record, log: seq<Act>, log': seq<Act>, o: Overrides, w: World,
                            r: Result<string, Refusal>)
    {
      if ComesTooLate(before, o) then r == Err(AlreadyOut) && Refused(before, after, log, log', o)
      else if Unreadable(before, o, legacy) then r == Err(Freeform) && Refused(before, after, log, log', o)
      else
        && EditedTo(before.publish, o, legacy, after.publish)
        && Attempts(before, after, log, log', w, r)
    }

    ghost predicate Refused(before: Record, after: Record, log: seq<Act>, log': seq<Act>, o: Overrides)
    {
      && log' == log && after.publish == WithTitle(before.publish, o)
      && forall half :: StateOf(after, half) == StateOf(before, half)
    }

    // Any sequence of calls, one at a time.
    method Serve(calls: seq<Call>)
      requires Valid()
      modifies `row, `log
      ensures Valid() && old(log) <= log
    {
      var n := 0;
      while n < |calls|
        invariant n <= |calls| && Valid() && old(log) <= log
      {
        match calls[n] {
          case Confirm(overrides, world) => var _ := ConfirmAcix(overrides, world);
          case Unpublish(scope) => var _ := UnpublishAcix(scope);
        }
        n := n + 1;
      }
    }
  }
}
