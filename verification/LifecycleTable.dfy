/** The shared table and the locks, changed in place. */
module LifecycleTable {
  import opened Prelude
  import opened TerminalLifecycle

  function ActiveIn(resources: map<TerminalId, Terminal>, project: ProjectId, only: Option<SessionId>): set<TerminalId> {
    set t | t in resources && InScope(resources[t], project, only) && Active(resources[t].state)
  }

  class Lifecycle {
    var locks: map<ProjectId, nat>
    var tickets: seq<Ticket>
    var entries: map<TerminalId, Terminal>
    var resources: map<TerminalId, Terminal>
    const home: map<SessionId, ProjectId>
    var sessions: set<SessionId>

    constructor (home: map<SessionId, ProjectId>, sessions: set<SessionId>)
      ensures Contents() == World(home, sessions, map[], map[], map[], [])
    {
      this.home, this.sessions := home, sessions;
      locks, tickets, entries, resources := map[], [], map[], map[];
    }

    function Contents(): World
      reads this
    {
      World(home, sessions, entries, resources, locks, tickets)
    }

    /** `withProject` up to its first wait: the call lines up behind the last one of the project. */
    method WithProject(project: ProjectId, job: Job) returns (ticket: nat)
      modifies this`locks, this`tickets
      ensures Contents() == Arrive(old(Contents()), project, job)
      ensures ticket < |tickets| && tickets[ticket].phase == Waiting
    {
      var previous := if project in locks then Some(locks[project]) else None;
      ticket := |tickets|;
      tickets := tickets + [Ticket(project, previous, job, Waiting)];
      locks := locks[project := ticket];
    }

    /** Its `finally`. */
    method LeaveProject(ticket: nat)
      requires ticket < |tickets|
      modifies this`locks
      ensures Contents() == Cleanup(old(Contents()), ticket)
    {
      var project := tickets[ticket].project;
      if project in locks && locks[project] == ticket { locks := locks - {project}; }
    }

    /** The ids named in the conflict; none means that deletion may go on. */
    method FindActive(project: ProjectId, only: Option<SessionId>) returns (ids: set<TerminalId>)
      ensures ids == ActiveIn(resources, project, only)
    {
      ids := {};
      var todo := resources.Keys;
      while todo != {}
        invariant todo <= resources.Keys
        invariant ids == set t | t in ActiveIn(resources, project, only) && t !in todo
        decreases |todo|
      {
        var t :| t in todo;
        todo := todo - {t};
        if InScope(resources[t], project, only) && Active(resources[t].state) { ids := ids + {t}; }
      }
    }

    method CheckDeletable(ticket: nat) returns (ok: bool)
      requires ticket < |tickets| && tickets[ticket].job.DeleteJob?
      modifies this`tickets
      ensures Contents() == AssertDeletable(old(Contents()), ticket)
      ensures ok <==> tickets[ticket].phase == Deletable
    {
      var ids := FindActive(tickets[ticket].project, tickets[ticket].job.only);
      ok := |ids| == 0;
      if !ok {
        var t :| t in ids;
        assert InScope(resources[t], tickets[ticket].project, tickets[ticket].job.only);
      } else {
        forall t | t in resources && InScope(resources[t], tickets[ticket].project, tickets[ticket].job.only)
          ensures !Active(resources[t].state)
        {
          assert t !in ids;
        }
      }
      tickets := tickets[ticket := tickets[ticket].(phase := if ok then Deletable else Done)];
    }

    method ChangeState(t: TerminalId, state: State)
      modifies this`entries, this`resources
      ensures Contents() == SetState(old(Contents()), t, state)
    {
      if t in entries { entries := entries[t := entries[t].(state := state)]; }
      if t in resources { resources := resources[t := resources[t].(state := state)]; }
    }

    /** `discard`: every terminal in scope is disposed of, one after another. */
    method DiscardTerminals(ticket: nat)
      requires ticket < |tickets| && tickets[ticket].job.DeleteJob? && resources == entries
      modifies this`entries, this`resources, this`tickets
      ensures Contents() == Discard(old(Contents()), ticket)
    {
      var project, only := tickets[ticket].project, tickets[ticket].job.only;
      var todo := resources.Keys;
      ghost var scope := set t | t in resources && InScope(resources[t], project, only);
      while todo != {}
        invariant todo <= old(resources).Keys && resources == entries && tickets == old(tickets)
        invariant resources == map t | t in old(resources) && (t !in scope || t in todo) :: old(resources)[t]
        decreases |todo|
      {
        var t :| t in todo;
        todo := todo - {t};
        if InScope(resources[t], project, only) {
          entries := entries - {t};
          resources := resources - {t};
        }
      }
      assert resources == old(resources) - scope;
      tickets := tickets[ticket := tickets[ticket].(phase := Done)];
    }
  }
}
