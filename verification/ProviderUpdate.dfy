/**
 One switch request: the forward commands under the lease, and the rollback of
 those already done when a later one fails.
 */
module ProviderUpdate {

  datatype App = Codex | Claude

  type Provider = string

  /** What cc-switch has selected. A command that fails changes nothing. */
  datatype Selection = Selection(codex: Provider, claude: Provider)

  function At(sel: Selection, app: App): Provider {
    if app.Codex? then sel.codex else sel.claude
  }

  function Set(sel: Selection, app: App, provider: Provider): Selection {
    if app.Codex? then sel.(codex := provider) else sel.(claude := provider)
  }

  type Request = (App, Provider)

  datatype Effect =
    | Renewed
    | Switched(app: App, provider: Provider)
    | Restored(app: App, provider: Provider)
    | WorkersReset

  /** How the outside answers the commands of one request: the lease, cc-switch and the runner. */
  datatype Answers = Answers(
    renews: App -> bool,
    switches: App -> bool,
    held: App -> bool,
    restores: App -> bool,
    renewsForReset: bool,
    resets: bool,
    heldAfterReset: bool)

  /** The input names each application at most once. */
  predicate DistinctApps(requested: seq<Request>) {
    forall i, j :: 0 <= i < j < |requested| ==> requested[i].0 != requested[j].0
  }

  /** The provider asked for, or the present one. */
  function Target(previous: Selection, requested: seq<Request>, app: App): Provider {
    if requested == [] then At(previous, app)
    else if requested[0].0 == app then requested[0].1
    else Target(previous, requested[1..], app)
  }

  predicate GoesThrough(answers: Answers, previous: Selection, request: Request) {
    request.1 != At(previous, request.0) ==>
      answers.renews(request.0) && answers.switches(request.0) && answers.held(request.0)
  }

  /** Every forward command comes right after a renewal that succeeded. */
  predicate RenewedFirst(effects: seq<Effect>) {
    forall i :: 0 <= i < |effects| && (effects[i].Switched? || effects[i].WorkersReset?) ==>
      i > 0 && effects[i - 1] == Renewed
  }

  lemma {:induction false} TargetOf(previous: Selection, requested: seq<Request>, i: nat)
    requires DistinctApps(requested) && i < |requested|
    ensures Target(previous, requested, requested[i].0) == requested[i].1
  {
    if i > 0 {
      TargetOf(previous, requested[1..], i - 1);
    }
  }

  lemma {:induction false} NoTarget(previous: Selection, requested: seq<Request>, app: App)
    requires forall i :: 0 <= i < |requested| ==> requested[i].0 != app
    ensures Target(previous, requested, app) == At(previous, app)
  {
    if requested != [] {
      NoTarget(previous, requested[1..], app);
    }
  }

  /** After the first `i` requests: those are in place, the others as before. */
  ghost predicate DoneUpTo(previous: Selection, requested: seq<Request>, i: int, now: Selection)
    requires 0 <= i <= |requested|
  {
    forall app :: At(now, app) ==
      if exists k :: 0 <= k < i && requested[k].0 == app then Target(previous, requested, app) else At(previous, app)
  }

  predicate Exactly(switched: seq<App>, previous: Selection, now: Selection) {
    && (forall app :: app in switched <==> At(now, app) != At(previous, app))
    && forall i, j :: 0 <= i < j < |switched| ==> switched[i] != switched[j]
  }

  lemma OneMore(previous: Selection, requested: seq<Request>, i: nat, now: Selection)
    requires DistinctApps(requested) && i < |requested| && DoneUpTo(previous, requested, i, now)
    ensures At(now, requested[i].0) == At(previous, requested[i].0)
    ensures DoneUpTo(previous, requested, i + 1, Set(now, requested[i].0, requested[i].1))
  {
    TargetOf(previous, requested, i);
  }

  lemma AllDone(previous: Selection, requested: seq<Request>, now: Selection)
    requires DoneUpTo(previous, requested, |requested|, now)
    ensures forall app :: At(now, app) == Target(previous, requested, app)
  {
    forall app ensures At(now, app) == Target(previous, requested, app) {
      if forall k :: 0 <= k < |requested| ==> requested[k].0 != app {
        NoTarget(previous, requested, app);
      }
    }
  }

  lemma PartlyDone(previous: Selection, requested: seq<Request>, i: nat, now: Selection, after: Selection)
    requires DistinctApps(requested) && i < |requested| && DoneUpTo(previous, requested, i, now)
    requires after == now || after == Set(now, requested[i].0, requested[i].1)
    ensures forall app :: At(after, app) == At(previous, app) || At(after, app) == Target(previous, requested, app)
  {
    OneMore(previous, requested, i, now);
  }

  method SwitchOne(request: Request, previous: Selection, before: Selection, done: seq<App>, log: seq<Effect>, answers: Answers)
    returns (ok: bool, now: Selection, switched: seq<App>, effects: seq<Effect>)
    requires request.1 != At(previous, request.0) && At(before, request.0) == At(previous, request.0)
    requires Exactly(done, previous, before) && RenewedFirst(log) && WorkersReset !in log
    ensures ok <==> GoesThrough(answers, previous, request)
    ensures now == Set(before, request.0, request.1) || (!ok && now == before)
    ensures Exactly(switched, previous, now)
    ensures RenewedFirst(effects) && WorkersReset !in effects
  {
    var (app, provider) := request;
    ok, now, switched, effects := false, before, done, log;
    if !answers.renews(app) { return; }
    effects := effects + [Renewed];
    if !answers.switches(app) { return; }
    effects := effects + [Switched(app, provider)];
    now := Set(now, app, provider);
    switched := switched + [app];
    ok := answers.held(app);
  }

  /** The forward commands, one after another; `switched` lists the applications done. */
  method Forward(requested: seq<Request>, previous: Selection, answers: Answers)
    returns (ok: bool, now: Selection, switched: seq<App>, effects: seq<Effect>)
    requires DistinctApps(requested)
    ensures ok <==> forall i :: 0 <= i < |requested| ==> GoesThrough(answers, previous, requested[i])
    ensures ok ==> forall app :: At(now, app) == Target(previous, requested, app)
    ensures forall app :: At(now, app) == At(previous, app) || At(now, app) == Target(previous, requested, app)
    ensures Exactly(switched, previous, now)
    ensures RenewedFirst(effects) && WorkersReset !in effects
  {
    ok, now, switched, effects := true, previous, [], [];
    for i := 0 to |requested|
      invariant ok && DoneUpTo(previous, requested, i, now)
      invariant forall k :: 0 <= k < i ==> GoesThrough(answers, previous, requested[k])
      invariant Exactly(switched, previous, now)
      invariant RenewedFirst(effects) && WorkersReset !in effects
    {
      ghost var before := now;
      OneMore(previous, requested, i, now);
      if requested[i].1 != At(previous, requested[i].0) {
        ok, now, switched, effects := SwitchOne(requested[i], previous, now, switched, effects, answers);
        if !ok {
          PartlyDone(previous, requested, i, before, now);
          return;
        }
      }
    }
    AllDone(previous, requested, now);
  }

  /** The undo commands that work, the last switch first. */
  function Undo(switched: seq<App>, previous: Selection, answers: Answers): (effects: seq<Effect>)
    ensures forall e :: e in effects ==> e.Restored?
  {
    if switched == [] then []
    else
      var app := switched[|switched| - 1];
      (if answers.restores(app) then [Restored(app, At(previous, app))] else [])
        + Undo(switched[..|switched| - 1], previous, answers)
  }

  lemma UndoNext(before: seq<Effect>, switched: seq<App>, previous: Selection, answers: Answers)
    requires switched != []
    ensures var app := switched[|switched| - 1];
      var after := if answers.restores(app) then before + [Restored(app, At(previous, app))] else before;
      before + Undo(switched, previous, answers) == after + Undo(switched[..|switched| - 1], previous, answers)
  {
  }

  /** The rollback commands of `tail` were given, those that work took effect. */
  ghost predicate UndoneTo(now: Selection, tail: seq<App>, previous: Selection, current: Selection, answers: Answers) {
    forall app :: At(now, app) == At(if app in tail && answers.restores(app) then previous else current, app)
  }

  lemma OneUndone(now: Selection, app: App, tail: seq<App>, previous: Selection, current: Selection, answers: Answers)
    requires UndoneTo(now, tail, previous, current, answers)
    ensures UndoneTo(if answers.restores(app) then Set(now, app, At(previous, app)) else now,
                     [app] + tail, previous, current, answers)
  {
  }

  /** Undo in reverse order; a failing undo is only logged. */
  method RollBack(switched: seq<App>, previous: Selection, current: Selection, answers: Answers)
    returns (now: Selection, effects: seq<Effect>)
    ensures UndoneTo(now, switched, previous, current, answers)
    ensures effects == Undo(switched, previous, answers)
  {
    now, effects := current, [];
    assert switched[..|switched|] == switched && switched[|switched|..] == [];
    for k := |switched| downto 0
      invariant UndoneTo(now, switched[k..], previous, current, answers)
      invariant effects + Undo(switched[..k], previous, answers) == Undo(switched, previous, answers)
    {
      var app := switched[k];
      OneUndone(now, app, switched[k + 1..], previous, current, answers);
      UndoNext(effects, switched[..k + 1], previous, answers);
      assert switched[k..] == [app] + switched[k + 1..] && switched[..k + 1][..k] == switched[..k];
      if answers.restores(app) {
        now := Set(now, app, At(previous, app));
        effects := effects + [Restored(app, At(previous, app))];
      }
    }
  }

  lemma SameSelection(a: Selection, b: Selection)
    ensures (forall app :: At(a, app) == At(b, app)) ==> a == b
  {
    assert (forall app :: At(a, app) == At(b, app)) ==> At(a, Codex) == At(b, Codex) && At(a, Claude) == At(b, Claude);
  }

  /** Undo commands need no renewal. */
  lemma RestoredQuietly(effects: seq<Effect>, undone: seq<Effect>)
    requires RenewedFirst(effects) && WorkersReset !in effects && forall e :: e in undone ==> e.Restored?
    ensures RenewedFirst(effects + undone) && WorkersReset !in effects + undone
  {
    assert forall i :: 0 <= i < |undone| ==> undone[i] in undone;
  }

  /**
   The whole request after its checks. Either every requested provider is in
   place, or, where the rollback commands work, exactly what was selected
   before; the workers are reset only once a codex switch and everything else
   is in place.
   */
  method UpdateProviders(requested: seq<Request>, previous: Selection, answers: Answers)
    returns (ok: bool, now: Selection, effects: seq<Effect>)
    requires DistinctApps(requested)
    ensures ok || WorkersReset in effects ==> forall app :: At(now, app) == Target(previous, requested, app)
    ensures (forall app :: answers.restores(app)) ==>
      now == previous || forall app :: At(now, app) == Target(previous, requested, app)
    ensures forall app :: At(now, app) == At(previous, app) || At(now, app) == Target(previous, requested, app)
    ensures WorkersReset in effects ==> now.codex != previous.codex
    ensures ok && now.codex != previous.codex ==> WorkersReset in effects
    ensures RenewedFirst(effects)
  {
    var switched;
    ok, now, switched, effects := Forward(requested, previous, answers);
    if !ok {
      var undone;
      now, undone := RollBack(switched, previous, now, answers);
      RestoredQuietly(effects, undone);
      effects := effects + undone;
      SameSelection(now, previous);
      return;
    }
    if Codex in switched {
      if !answers.renewsForReset { return false, now, effects; }
      effects := effects + [Renewed];
      if !answers.resets { return false, now, effects; }
      effects := effects + [WorkersReset];
      assert effects[|effects| - 1] == WorkersReset;
      ok := answers.heldAfterReset;
    }
    assert At(now, Codex) == now.codex && At(previous, Codex) == previous.codex;
  }
}
