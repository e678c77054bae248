// What a leader's books hold while in office, and so what it must do when asked.
module Offices {
  import opened Prelude
  import opened RaftTypes
  import opened RaftSpec
  import opened History
  import opened Invariant
  import opened Moves
  import opened Handlers
  import opened Safety
  import opened Duties
  import S = Sessions
  import KvStore

  // ---- one step of a leader ---------------------------------------------------

  // Nothing a leader's books depend on has gone backwards.
  predicate Unchanged(id: Id, n: Node, n2: Node) {
    && n2.log == n.log && n2.clientIndex == n.clientIndex && n2.term == n.term && n2.alive == n.alive && n2.base >= n.base
    && MatchFor(n2, id) >= MatchFor(n, id)
    && (if n2.commit == n.commit then n2.confirmed == n.confirmed
        else n2.confirmed && n.commit < n2.commit <= |n2.log| && n2.log[n2.commit - 1].term == n2.term)
  }

  predicate Added(id: Id, n: Node, n2: Node, p: Payload) {
    && n2.log == n.log + [Entry(n.term, p)] && n2.clientIndex == Noted(n.clientIndex, CommandOf(p))
    && n2.term == n.term && n2.alive == n.alive && n2.base == n.base && n2.commit == n.commit && n2.confirmed == n.confirmed
    && MatchFor(n2, id) == |n2.log|
  }

  lemma LeadingStep(par: Params, id: Id, n: Node, ev: Event)
    requires n.role == Leader && n.alive && n.base <= n.commit <= |n.log|
    ensures var n2 := React(par, id, n, ev).node;
            n2.role == Leader ==> Unchanged(id, n, n2) || exists p :: Added(id, n, n2, p)
  {
    hide Heartbeats, ClientCommand, ChangeConfig, Handle, RequestRead, Unchanged, Added, ConfigOf;
    match ev
    case Command(p) => CommandAdds(par, id, n, p);
    case Change(voters) => ChangeAdds(par, id, n, voters);
    case Receive(m) => ReceiveLeaves(par, id, n, m);
    case ReadRequest(c) => ReadLeaves(par, id, n, c);
    case _ => SameUnchanged(id, n);
  }

  lemma SameUnchanged(id: Id, n: Node)
    ensures Unchanged(id, n, n)
  {
  }

  lemma CommandAdds(par: Params, id: Id, n: Node, p: Payload)
    ensures var n2 := ClientCommand(par, id, n, p).node; n2 == n || Added(id, n, n2, p)
    ensures Unchanged(id, n, n)
  {
    hide Heartbeats;
  }

  lemma ChangeAdds(par: Params, id: Id, n: Node, voters: set<Id>)
    ensures var n2 := ChangeConfig(par, id, n, voters).node; n2 == n || Added(id, n, n2, Config(voters))
    ensures Unchanged(id, n, n)
  {
    hide Heartbeats, ConfigOf, MayChange;
  }

  lemma ReadLeaves(par: Params, id: Id, n: Node, c: KvStore.Command)
    ensures Unchanged(id, n, RequestRead(par, id, n, c).node)
  {
    hide StateAfter, Majority, ConfigOf, ReadRound;
  }

  lemma ReceiveLeaves(par: Params, id: Id, n: Node, m: Message<Log>)
    requires n.role == Leader && n.alive && n.base <= n.commit <= |n.log|
    ensures Handle(par, id, n, m).node.role == Leader ==> Unchanged(id, n, Handle(par, id, n, m).node)
  {
    hide OnRequestVote, OnVoteReply, OnAppendEntries, OnAppendReply, OnInstallSnapshot, OnReadHeartbeat, OnReadAck;
    S.FollowerLog(par, id, n, m);
    match m
    case RequestVote(_, _, _, _) => VotesLeave(par, id, n, m);
    case VoteReply(_, _, _) => VotesLeave(par, id, n, m);
    case AppendEntries(_, _, _, _, _, _) =>
    case AppendReply(_, _, _, _) => ReplyLeaves(par, id, n, m);
    case InstallSnapshot(_, _, _, _, _) =>
    case ReadHeartbeat(_, _, _) => VotesLeave(par, id, n, m);
    case ReadAck(_, _, _) => AckLeaves(par, id, n, m);
  }

  lemma VotesLeave(par: Params, id: Id, n: Node, m: Message<Log>)
    requires n.role == Leader
    ensures m.RequestVote? ==> var n2 := OnRequestVote(id, n, m).node; n2.role == Leader ==> Unchanged(id, n, n2)
    ensures m.VoteReply? ==> var n2 := OnVoteReply(par, id, n, m).node; n2.role == Leader ==> Unchanged(id, n, n2)
    ensures m.ReadHeartbeat? ==> var n2 := OnReadHeartbeat(id, n, m).node; n2.role == Leader ==> Unchanged(id, n, n2)
  {
    hide UpToDate, MaybeWin;
  }

  lemma AckLeaves(par: Params, id: Id, n: Node, m: Message<Log>)
    requires m.ReadAck?
    ensures var n2 := OnReadAck(par, n, m).node; n2.role == Leader ==> Unchanged(id, n, n2)
  {
    hide StateAfter, Majority, ConfigOf;
  }

  lemma ReplyLeaves(par: Params, id: Id, n: Node, m: Message<Log>)
    requires n.role == Leader && n.alive && m.AppendReply? && n.base <= n.commit <= |n.log|
    ensures var n2 := OnAppendReply(par, id, n, m).node; n2.role == Leader ==> Unchanged(id, n, n2)
  {
    hide AdvanceCommit, AppendFor, NextFor, Committable, ApplyRange;
    if m.success && m.term == n.term {
      SuccessExactly(par, id, n, m);
    }
  }

  // Office is taken on a timeout or on a vote, with fresh books.
  lemma TakingOffice(par: Params, id: Id, n: Node, ev: Event)
    requires n.role != Leader && React(par, id, n, ev).node.role == Leader
    ensures var n2 := React(par, id, n, ev).node;
            && n2.log == n.log && n2.base == n.base && n2.clientIndex == ClientIndex(Drop(n.log, n.base))
            && MatchFor(n2, id) == |n.log| && n2.alive && n2.commit == n.commit && !n2.confirmed
            && (n2.term > n.term || (n.role == Candidate && n2.term == n.term))
  {
    hide Heartbeats, ClientIndex, ClientCommand, ChangeConfig, Handle, RequestRead, ConfigOf, Majority;
    match ev
    case Receive(m) => ReceivedOffice(par, id, n, m);
    case ReadRequest(c) => NoOfficeByAsking(par, id, n, ev);
    case Command(p) => NoOfficeByAsking(par, id, n, ev);
    case Change(voters) => NoOfficeByAsking(par, id, n, ev);
    case _ =>
  }

  lemma NoOfficeByAsking(par: Params, id: Id, n: Node, ev: Event)
    requires n.role != Leader && (ev.ReadRequest? || ev.Command? || ev.Change?)
    ensures React(par, id, n, ev).node.role != Leader
  {
    hide Heartbeats, ConfigOf;
  }

  lemma ReceivedOffice(par: Params, id: Id, n: Node, m: Message<Log>)
    requires n.role != Leader && Handle(par, id, n, m).node.role == Leader
    ensures var n2 := Handle(par, id, n, m).node;
            && n2.log == n.log && n2.base == n.base && n2.clientIndex == ClientIndex(Drop(n.log, n.base))
            && MatchFor(n2, id) == |n.log| && n2.alive && n2.commit == n.commit && !n2.confirmed
            && (n2.term > n.term || (n.role == Candidate && n2.term == n.term))
  {
    hide Heartbeats, ClientIndex, OnAppendEntries, OnInstallSnapshot, OnReadAck, ConfigOf, Majority, UpToDate, AppendFor;
    S.FollowerLog(par, id, n, m);
    if m.ReadAck? {
      NoOfficeByAck(par, n, m);
    }
  }

  lemma NoOfficeByAck(par: Params, n: Node, m: Message<Log>)
    requires m.ReadAck?
    ensures OnReadAck(par, n, m).node.role == Leader ==> n.role == Leader
  {
    hide StateAfter, Majority, ConfigOf;
  }

  // ---- the books --------------------------------------------------------------

  // The request index a leader starts with covers its uncompacted log, and then grows with
  // every command it appends; compaction later in its term takes nothing from it.

  // This entry is a request of the client numbered req or higher.
  predicate Supersedes(e: Entry, client: int, req: int) {
    var c := CommandOf(e.payload); KvStore.Structured(c) && c.client == client && c.req >= req
  }

  // Some entry above b supersedes the request.
  ghost predicate Superseded(log: Log, b: nat, client: int, req: int) {
    exists k | b <= k < |log| :: Supersedes(log[k], client, req)
  }

  // The request index names exactly the requests above b: a request is at most the index
  // of its client if and only if an entry above b supersedes it.
  ghost predicate Indexed(index: map<int, int>, log: Log, b: nat) {
    && (forall client :: IndexFor(index, client) >= -1)
    && forall client, req | req >= 0 :: req <= IndexFor(index, client) <==> Superseded(log, b, client, req)
  }

  lemma {:induction false} FreshIndex(log: Log)
    ensures Indexed(ClientIndex(log), log, 0)
  {
    if log == [] {
      assert forall client, req :: !Superseded(log, 0, client, req);
    } else {
      var before, e := log[..|log| - 1], log[|log| - 1];
      FreshIndex(before);
      assert log == before + [e];
      NotedIndexed(ClientIndex(before), before, 0, e);
    }
  }

  lemma NotedIndexed(index: map<int, int>, log: Log, b: nat, e: Entry)
    requires Indexed(index, log, b) && b <= |log|
    ensures Indexed(Noted(index, CommandOf(e.payload)), log + [e], b)
  {
    var index2, log2 := Noted(index, CommandOf(e.payload)), log + [e];
    forall client
      ensures IndexFor(index2, client) >= -1
    {
      assert IndexFor(index, client) >= -1;
    }
    forall client, req | req >= 0
      ensures req <= IndexFor(index2, client) <==> Superseded(log2, b, client, req)
    {
      SeenMore(log, b, e, client, req);
      assert req <= IndexFor(index, client) <==> Superseded(log, b, client, req);
    }
  }

  lemma SeenMore(log: Log, b: nat, e: Entry, client: int, req: int)
    requires b <= |log|
    ensures Superseded(log + [e], b, client, req) <==> Superseded(log, b, client, req) || Supersedes(e, client, req)
  {
    hide Supersedes;
    var log2 := log + [e];
    assert log2[|log|] == e;
    if Superseded(log, b, client, req) {
      var k :| b <= k < |log| && Supersedes(log[k], client, req);
      assert Supersedes(log2[k], client, req);
    }
  }

  lemma SeenAbove(log: Log, b: nat, client: int, req: int)
    requires b <= |log|
    ensures Superseded(log[b..], 0, client, req) <==> Superseded(log, b, client, req)
  {
    hide Supersedes;
    if Superseded(log, b, client, req) {
      var k :| b <= k < |log| && Supersedes(log[k], client, req);
      assert log[b..][k - b] == log[k];
    }
  }

  // The books of a leader that took office with b entries compacted.
  ghost predicate Kept(id: Id, n: Node, b: nat) {
    && n.alive && b <= |n.log| && MatchFor(n, id) >= |n.log| && Indexed(n.clientIndex, n.log, b)
    && (n.confirmed <==> OwnCommitted(n))
  }

  // An entry of its own term is committed.
  predicate OwnCommitted(n: Node) {
    0 < n.commit <= |n.log| && n.log[n.commit - 1].term == n.term
  }

  lemma KeptByStep(par: Params, id: Id, n: Node, ev: Event, b: nat)
    requires n.role == Leader && Kept(id, n, b) && n.base <= n.commit <= |n.log|
    ensures var n2 := React(par, id, n, ev).node; n2.role == Leader ==> Kept(id, n2, b) && n2.term == n.term
  {
    hide React, Indexed, MatchFor;
    LeadingStep(par, id, n, ev);
    var n2 := React(par, id, n, ev).node;
    if n2.role == Leader && !Unchanged(id, n, n2) {
      var p :| Added(id, n, n2, p);
      NotedIndexed(n.clientIndex, n.log, b, Entry(n.term, p));
    }
  }

  lemma KeptFirst(par: Params, id: Id, n: Node, ev: Event)
    requires n.role != Leader && React(par, id, n, ev).node.role == Leader && n.base <= |n.log|
    requires n.commit <= |n.log| && forall k | 0 <= k < |n.log| :: n.log[k].term <= n.term && (n.role == Candidate ==> n.log[k].term < n.term)
    ensures Kept(id, React(par, id, n, ev).node, n.base)
  {
    hide React, Superseded, ClientIndex;
    var n2 := React(par, id, n, ev).node;
    TakingOffice(par, id, n, ev);
    FreshIndex(n.log[n.base..]);
    forall client, req | req >= 0
      ensures req <= IndexFor(n2.clientIndex, client) <==> Superseded(n.log, n.base, client, req)
    {
      SeenAbove(n.log, n.base, client, req);
    }
  }

  // ---- over a run -------------------------------------------------------------

  // At moment e the server took office, and has led since, until moment i.
  ghost predicate Office(r: Run, e: nat, i: nat, a: Id) {
    && 0 < e <= i < |r.states| && a in r.states[e - 1].nodes && r.states[e - 1].nodes[a].role != Leader
    && forall j | e <= j <= i :: a in r.states[j].nodes && r.states[j].nodes[a].role == Leader
  }

  // The entries of a candidate are all of earlier terms.
  lemma EarlierTerms(par: Params, r: Run, i: nat, a: Id)
    requires IsRun(par, r) && i < |r.states| && a in r.states[i].nodes
    ensures var n := r.states[i].nodes[a];
            forall k | 0 <= k < |n.log| :: n.log[k].term <= n.term && (n.role == Candidate ==> n.log[k].term < n.term)
  {
    hide React;
    var hs := Telling(par, r);
    var n := r.states[i].nodes[a];
    NodeAt(par, r, hs, i, a);
    Parts(par, hs[i], a, n);
    HistRecords(par, hs[i]);
    assert n.role == Candidate ==> CandOk(hs[i], n.term, hs[i].cands[(a, n.term)]);
  }

  lemma {:induction false} KeptInOffice(par: Params, r: Run, e: nat, i: nat, a: Id)
    requires IsRun(par, r) && Office(r, e, i, a)
    ensures Kept(a, r.states[i].nodes[a], r.states[e - 1].nodes[a].base)
    ensures r.states[i].nodes[a].term == r.states[e].nodes[a].term
    decreases i
  {
    hide React, Kept;
    var n, l := r.states[i - 1].nodes[a], r.labels[i - 1];
    OthersUntouched(par, r, i - 1, a);
    CommittedPrefixStays(par, r, i - 1, a);
    if i == e {
      EarlierTerms(par, r, i - 1, a);
      KeptFirst(par, a, n, l.event);
    } else {
      KeptInOffice(par, r, e, i - 1, a);
      if l.who == a {
        KeptByStep(par, a, n, l.event, r.states[e - 1].nodes[a].base);
      }
    }
  }

  lemma NoneLeadsAtFirst(par: Params, r: Run, a: Id)
    requires IsRun(par, r)
    ensures a in r.states[0].nodes ==> r.states[0].nodes[a].role == Follower
  {
    hide React;
  }

  // Whoever leads took office at some moment.
  lemma {:induction false} OfficeSince(par: Params, r: Run, i: nat, a: Id) returns (e: nat)
    requires IsRun(par, r) && i < |r.states| && a in r.states[i].nodes && r.states[i].nodes[a].role == Leader
    ensures Office(r, e, i, a)
    decreases i
  {
    hide React;
    NoneLeadsAtFirst(par, r, a);
    OthersUntouched(par, r, i - 1, a);
    if r.states[i - 1].nodes[a].role != Leader {
      e := i;
    } else {
      e := OfficeSince(par, r, i - 1, a);
    }
  }

  // ---- which commands are appended --------------------------------------------

  // The command is new to a leader that took office with b entries compacted: it is not a
  // client's, or no entry above b has this client with an id at least as large.
  ghost predicate IsNew(log: Log, b: nat, c: KvStore.Command) {
    KvStore.Structured(c) ==> c.req >= 0 && !Superseded(log, b, c.client, c.req)
  }

  // The leader has this command at the end of its log, counts itself as holding it, and
  // sends it, with whatever else they lack, to all other voters.
  ghost predicate Appended(par: Params, id: Id, n: Node, p: Payload, o: Out) {
    && o.node.log == n.log + [Entry(n.term, p)]
    && MatchFor(o.node, id) == |n.log| + 1
    && o.node.(log := n.log, matched := n.matched, clientIndex := n.clientIndex) == n
    && o.applied == []
    && (forall v | v in Voters(par, o.node) && v != id :: exists q :: q in o.sends && BringsUp(id, o.node, v, q))
    && (forall q | q in o.sends :: q.dst in Voters(par, o.node) && q.dst != id && BringsUp(id, o.node, q.dst, q))
    && (forall q | q in o.sends && NextFor(n, q.dst) > n.base :: q.msg.AppendEntries? && Entry(n.term, p) in q.msg.entries)
  }

  lemma AppendsExactly(par: Params, id: Id, n: Node, p: Payload, b: nat)
    requires n.role == Leader && Kept(id, n, b) && n.base <= |n.log| && forall v :: 1 <= NextFor(n, v) <= |n.log| + 1
    ensures var o := React(par, id, n, Command(p));
            if IsNew(n.log, b, CommandOf(p)) then Appended(par, id, n, p, o) else o == Quiet(n)
  {
    hide BringsUp, Voters, AppendFor, NextFor, Heartbeats, Superseded;
    var o, c := React(par, id, n, Command(p)), CommandOf(p);
    assert KvStore.Structured(c) ==> (c.req <= IndexFor(n.clientIndex, c.client) <==> !IsNew(n.log, b, c));
    if IsNew(n.log, b, c) {
      NextSame(n, o.node);
      RoundExactly(par, id, o.node);
      forall q | q in o.sends && NextFor(n, q.dst) > n.base
        ensures q.msg.AppendEntries? && Entry(n.term, p) in q.msg.entries
      {
        assert BringsUp(id, o.node, q.dst, q);
        LastCarried(id, o.node, q.dst, q);
      }
    }
  }

  lemma LastCarried(id: Id, n: Node, v: Id, q: Packet<Log>)
    requires BringsUp(id, n, v, q) && n.base < NextFor(n, v) <= |n.log|
    ensures q.msg.AppendEntries? && n.log[|n.log| - 1] in q.msg.entries
  {
    hide NextFor;
    var es := q.msg.entries;
    assert n.log[|n.log| - 1] == (n.log[..q.msg.prevIndex] + es)[|n.log| - 1] == es[|es| - 1];
  }

  lemma NextSame(n: Node, o: Node)
    ensures o.next == n.next ==> forall v :: NextFor(o, v) == NextFor(n, v)
  {
  }

  // In every run, at any moment since a server took office: a command is appended and sent
  // exactly if no entry above what was compacted then supersedes it.
  lemma CommandExactly(par: Params, r: Run, e: nat, i: nat, a: Id, p: Payload)
    requires IsRun(par, r) && Office(r, e, i, a)
    ensures var n, o := r.states[i].nodes[a], Outcome(par, r.states[i], Label(a, Command(p)));
            if IsNew(n.log, r.states[e - 1].nodes[a].base, CommandOf(p)) then Appended(par, a, n, p, o) else o == Quiet(n)
  {
    hide React, Kept, Appended, IsNew;
    var n := r.states[i].nodes[a];
    KeptInOffice(par, r, e, i, a);
    forall v
      ensures 1 <= NextFor(n, v) <= |n.log| + 1
    {
      ProgressWithinLog(par, r, i, a, v);
    }
    BoundsAt(par, r, i, a);
    AppendsExactly(par, a, n, p, r.states[e - 1].nodes[a].base);
  }

  lemma BoundsAt(par: Params, r: Run, i: nat, a: Id)
    requires IsRun(par, r) && i < |r.states| && a in r.states[i].nodes
    ensures r.states[i].nodes[a].base <= r.states[i].nodes[a].commit <= |r.states[i].nodes[a].log|
  {
    hide React;
    var hs := Telling(par, r);
    NodeAt(par, r, hs, i, a);
    Parts(par, hs[i], a, r.states[i].nodes[a]);
  }

  // Without compaction: exactly if no entry of its log supersedes it.
  lemma CommandExactlyUncompacted(par: Params, r: Run, i: nat, a: Id, p: Payload)
    requires IsRun(par, r) && par.threshold == 0
    requires i < |r.states| && a in r.states[i].nodes && r.states[i].nodes[a].role == Leader
    ensures var n, o := r.states[i].nodes[a], Outcome(par, r.states[i], Label(a, Command(p)));
            if IsNew(n.log, 0, CommandOf(p)) then Appended(par, a, n, p, o) else o == Quiet(n)
  {
    hide React, Appended, IsNew;
    var e := OfficeSince(par, r, i, a);
    var hs := Telling(par, r);
    S.RunIncreases(par, r, hs, e - 1);
    CommandExactly(par, r, e, i, a, p);
  }

  // ---- membership changes -----------------------------------------------------

  // One server comes or goes, not the leader; no configuration is waiting to be committed,
  // and something of the leader's own term has been.
  predicate ChangeDue(par: Params, id: Id, n: Node, voters: set<Id>) {
    && n.role == Leader && id in voters && OneApart(voters, Voters(par, n))
    && (forall k | n.commit <= k < |n.log| :: !n.log[k].payload.Config?)
    && OwnCommitted(n)
  }

  // The configuration is in force at once, and its other voters are sent what they lack.
  ghost predicate Changed(par: Params, id: Id, n: Node, voters: set<Id>, o: Out) {
    && o.node.log == n.log + [Entry(n.term, Config(voters))] && Voters(par, o.node) == voters
    && MatchFor(o.node, id) == |n.log| + 1 && o.node.(log := n.log, matched := n.matched) == n && o.applied == []
    && (forall v | v in voters && v != id :: exists q :: q in o.sends && BringsUp(id, o.node, v, q))
    && (forall q | q in o.sends :: q.dst in voters && q.dst != id && BringsUp(id, o.node, q.dst, q))
  }

  // In every run a change is made exactly when it is due.
  lemma ChangeExactly(par: Params, r: Run, i: nat, a: Id, voters: set<Id>)
    requires IsRun(par, r) && i < |r.states| && a in r.states[i].nodes
    ensures var n, o := r.states[i].nodes[a], Outcome(par, r.states[i], Label(a, Change(voters)));
            if ChangeDue(par, a, n, voters) then Changed(par, a, n, voters, o) else o == Quiet(n)
  {
    hide ChangeConfig, Changed, OneApart, ConfigOf, Indexed;
    var n := r.states[i].nodes[a];
    if n.role == Leader {
      var e := OfficeSince(par, r, i, a);
      KeptInOffice(par, r, e, i, a);
      forall v
        ensures 1 <= NextFor(n, v) <= |n.log| + 1
      {
        ProgressWithinLog(par, r, i, a, v);
      }
      BoundsAt(par, r, i, a);
      ChangesExactly(par, a, n, voters);
    } else {
      NotLeading(par, a, n, voters);
    }
  }

  lemma NotLeading(par: Params, id: Id, n: Node, voters: set<Id>)
    requires n.role != Leader
    ensures ChangeConfig(par, id, n, voters) == Quiet(n)
  {
  }

  lemma ChangesExactly(par: Params, id: Id, n: Node, voters: set<Id>)
    requires n.role == Leader && n.alive && (n.confirmed <==> OwnCommitted(n))
    requires n.base <= n.commit <= |n.log| && forall v :: 1 <= NextFor(n, v) <= |n.log| + 1
    ensures var o := ChangeConfig(par, id, n, voters);
            if ChangeDue(par, id, n, voters) then Changed(par, id, n, voters, o) else o == Quiet(n)
  {
    hide BringsUp, AppendFor, NextFor, Heartbeats, ConfigOf, MayChange, ChangeDue;
    var o := ChangeConfig(par, id, n, voters);
    DueExactly(par, id, n, voters);
    if ChangeDue(par, id, n, voters) {
      var e := Entry(n.term, Config(voters));
      assert o == Heartbeat(par, id, Extend(n, id, e));
      assert o.node.log == n.log + [e];
      Adopted(par, n.log, e);
      assert Voters(par, o.node) == voters;
      NextSame(n, o.node);
      RoundExactly(par, id, o.node);
      forall v | v in voters && v != id
        ensures exists q :: q in o.sends && BringsUp(id, o.node, v, q)
      {
        assert AppendFor(id, o.node, v) in o.sends;
      }
    }
  }

  lemma DueExactly(par: Params, id: Id, n: Node, voters: set<Id>)
    requires n.role == Leader && n.alive && (n.confirmed <==> OwnCommitted(n)) && n.commit <= |n.log|
    ensures MayChange(par, id, n, voters) <==> ChangeDue(par, id, n, voters)
  {
    hide ConfigOf, OneApart, OwnCommitted;
    var i := ConfigIndex(n.log);
    if i > n.commit {
      assert n.log[i - 1].payload.Config?;
    }
  }

  lemma Adopted(par: Params, log: Log, e: Entry)
    requires e.payload.Config?
    ensures ConfigOf(par.initial, log + [e]) == e.payload.voters
  {
  }

  // ---- reads ------------------------------------------------------------------

  // A leader that has committed in its own term notes the commit index and asks every other
  // voter; being its own majority it answers at once. Nobody else takes a read on.
  lemma ReadTakenExactly(par: Params, r: Run, i: nat, a: Id, c: KvStore.Command)
    requires IsRun(par, r) && i < |r.states| && a in r.states[i].nodes
    ensures var n, o := r.states[i].nodes[a], Outcome(par, r.states[i], Label(a, ReadRequest(c)));
            if n.role == Leader && OwnCommitted(n) then
              && o.sends == (set v | v in Voters(par, n) && v != a :: Packet(v, ReadHeartbeat(n.term, a, n.nextRead)))
              && (if Voters(par, n) == {a} then
                    && o.applied == [Applied(c, KvStore.Read(StateAfter(Take(n.log, n.commit)).store, c))]
                    && o.node.pending == n.pending - {n.nextRead}
                  else
                    && o.applied == []
                    && o.node.pending == n.pending[n.nextRead := PendingRead(c, n.commit, {a})])
              && o.node.(pending := n.pending, nextRead := n.nextRead) == n && o.node.nextRead == n.nextRead + 1
            else o == Quiet(n)
  {
    hide RequestRead, ConfigOf, Indexed, StateAfter;
    var n := r.states[i].nodes[a];
    if n.role == Leader {
      var e := OfficeSince(par, r, i, a);
      KeptInOffice(par, r, e, i, a);
      TakesRead(par, a, n, c);
    } else {
      TakesNoRead(par, a, n, c);
    }
  }

  lemma TakesNoRead(par: Params, id: Id, n: Node, c: KvStore.Command)
    requires n.role != Leader
    ensures RequestRead(par, id, n, c) == Quiet(n)
  {
  }

  lemma TakesRead(par: Params, id: Id, n: Node, c: KvStore.Command)
    requires n.role == Leader && n.alive && (n.confirmed <==> OwnCommitted(n))
    ensures var o := RequestRead(par, id, n, c);
            if OwnCommitted(n) then
              && o.sends == (set v | v in Voters(par, n) && v != id :: Packet(v, ReadHeartbeat(n.term, id, n.nextRead)))
              && (if Voters(par, n) == {id} then
                    && o.applied == [Applied(c, KvStore.Read(StateAfter(Take(n.log, n.commit)).store, c))]
                    && o.node.pending == n.pending - {n.nextRead}
                  else
                    && o.applied == []
                    && o.node.pending == n.pending[n.nextRead := PendingRead(c, n.commit, {id})])
              && o.node.(pending := n.pending, nextRead := n.nextRead) == n && o.node.nextRead == n.nextRead + 1
            else o == Quiet(n)
  {
    hide StateAfter, ConfigOf;
    AloneIsMajority(id, Voters(par, n));
  }

  lemma AloneIsMajority(id: Id, c: set<Id>)
    ensures Majority({id}, c) <==> c == {id}
  {
    if id in c {
      assert {id} * c == {id};
      assert c == {id} + (c - {id});
    } else {
      assert {id} * c == {};
    }
  }

  // Every live server answers, with the larger term.
  lemma ReadHeartbeatAnswered(par: Params, id: Id, n: Node, m: Message<Log>)
    requires n.alive && m.ReadHeartbeat?
    ensures var o := React(par, id, n, Receive(m));
            && o.sends == {Packet(m.leader, ReadAck(Max(n.term, m.term), id, m.readId))} && o.applied == []
            && o.node.term == Max(n.term, m.term) && o.node.log == n.log && o.node.commit == n.commit && o.node.base == n.base && o.node.alive
            && (m.term <= n.term ==> o.node == n) && (m.term > n.term ==> o.node.role == Follower && o.node.votedFor == None)
  {
  }

  // A confirmation of a pending read, in the leader's term, is counted, and the read is
  // answered from the committed state as soon as the confirmations are a majority.
  lemma ReadServedExactly(par: Params, r: Run, i: nat, a: Id, m: Message<Log>)
    requires IsRun(par, r) && i < |r.states| && a in r.states[i].nodes && r.states[i].nodes[a].role == Leader
    requires m.ReadAck? && m.term == r.states[i].nodes[a].term && m.readId in r.states[i].nodes[a].pending
    ensures var n, o := r.states[i].nodes[a], Outcome(par, r.states[i], Label(a, Receive(m)));
            var read := n.pending[m.readId];
            var acks := read.acks + {m.follower};
            && o.sends == {} && o.node.(pending := n.pending) == n
            && if 2 * |acks * Voters(par, n)| > |Voters(par, n)| then
              && o.applied == [Applied(read.command, KvStore.Read(StateAfter(Take(n.log, n.commit)).store, read.command))]
              && o.node.pending == n.pending - {m.readId}
            else
              && o.applied == []
              && o.node.pending == n.pending[m.readId := read.(acks := acks)]
  {
    hide ConfigOf, StateAfter, Indexed;
    var hs := Telling(par, r);
    var n := r.states[i].nodes[a];
    NodeAt(par, r, hs, i, a);
    Parts(par, hs[i], a, n);
    var e := OfficeSince(par, r, i, a);
    KeptInOffice(par, r, e, i, a);
    CountsAck(par, a, n, m);
  }

  lemma CountsAck(par: Params, id: Id, n: Node, m: Message<Log>)
    requires n.alive && n.role == Leader && m.ReadAck? && m.term == n.term && m.readId in n.pending && n.pending[m.readId].index <= n.commit
    ensures var o := React(par, id, n, Receive(m));
            var read := n.pending[m.readId];
            var acks := read.acks + {m.follower};
            && o.sends == {} && o.node.(pending := n.pending) == n
            && if 2 * |acks * Voters(par, n)| > |Voters(par, n)| then
              && o.applied == [Applied(read.command, KvStore.Read(StateAfter(Take(n.log, n.commit)).store, read.command))]
              && o.node.pending == n.pending - {m.readId}
            else
              && o.applied == []
              && o.node.pending == n.pending[m.readId := read.(acks := acks)]
  {
    hide ConfigOf, StateAfter;
    var read := n.pending[m.readId].(acks := n.pending[m.readId].acks + {m.follower});
    assert n.pending[m.readId := read] - {m.readId} == n.pending - {m.readId};
  }
}
