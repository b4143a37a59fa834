/** Read-index rounds (section 6.4 of the dissertation): who may have acknowledged a round. */
module ReadIndex {
  import opened Types
  import opened Event
  import opened Protocol
  import opened History

  /** `v` spoke for round `id` of term `t` after it was requested: it took part in no
      election of a later term that was already decided then. */
  ghost predicate Fresh(v: NodeId, t: Term, id: nat, h: History) {
    && (t, id) in h.rounds
    && forall u :: u in h.rounds[(t, id)].elected && u > t ==> u in h.elections && v !in h.elections[u].voters
  }

  /** The round of term `w` with these numbers was `to`'s. */
  ghost predicate Numbered(to: NodeId, w: Term, id: nat, readIndex: LogIndex, h: History) {
    && (w, id) in h.rounds && h.rounds[(w, id)].readIndex == readIndex
    && w in h.elections && h.elections[w].leader == to
  }

  /** The answer echoes a round that `to` numbered in an older term: a follower that has moved
      on repeats the old round's numbers under its own, newer term. */
  ghost predicate Echo(to: NodeId, t: Term, id: nat, readIndex: LogIndex, h: History) {
    exists w: Term :: w < t && Numbered(to, w, id, readIndex, h)
  }

  ghost predicate Answer(v: NodeId, to: NodeId, t: Term, id: nat, readIndex: LogIndex, h: History) {
    Fresh(v, t, id, h) || Echo(to, t, id, readIndex, h)
  }

  ghost predicate PendingOk(i: NodeId, sv: Server, h: History) {
    sv.phase.Leading? && sv.phase.pending.Some? ==>
      var round := sv.phase.pending.value;
      && (sv.term, round.id) in h.rounds
      && h.rounds[(sv.term, round.id)].readIndex == round.readIndex
      && forall v :: v in round.acks ==> Answer(v, i, sv.term, round.id, round.readIndex, h)
  }

  /** A leader's confirmed index is the highest of the rounds of its term confirmed so far. */
  ghost predicate ConfirmedOk(sv: Server, h: History) {
    sv.phase.Leading? ==>
      && (forall n :: (sv.term, n) in h.confirmed ==> ConfirmedAt(sv.term, n, h) <= sv.phase.confirmed)
      && (sv.phase.confirmed > 0 ==>
            exists n :: (sv.term, n) in h.confirmed && ConfirmedAt(sv.term, n, h) == sv.phase.confirmed)
  }

  ghost function ConfirmedAt(t: Term, id: nat, h: History): LogIndex {
    if (t, id) in h.rounds then h.rounds[(t, id)].readIndex else 0
  }

  ghost predicate ReadMessageOk(m: Message, h: History) {
    match m.body
    case ReadIndexRequest(id, readIndex) => Numbered(m.from, m.term, id, readIndex, h)
    case ReadIndexResponse(id, readIndex) => Answer(m.from, m.to, m.term, id, readIndex, h)
    case _ => true
  }

  ghost predicate RoundsOk(h: History) {
    && (forall k :: k in h.rounds ==> h.rounds[k].elected <= h.elections.Keys)
    && h.confirmed <= h.rounds.Keys
  }

  ghost predicate ReadInv(s: State, h: History) {
    && (forall i :: i in s.servers ==> PendingOk(i, s.servers[i], h) && ConfirmedOk(s.servers[i], h))
    && (forall m :: m in s.net ==> ReadMessageOk(m, h))
    && RoundsOk(h)
  }

  lemma EchoGrows(to: NodeId, t: Term, id: nat, readIndex: LogIndex, h: History, h': History)
    requires Echo(to, t, id, readIndex, h) && Extends(h, h')
    ensures Echo(to, t, id, readIndex, h')
  {
    var w: Term :| w < t && Numbered(to, w, id, readIndex, h);
    assert Numbered(to, w, id, readIndex, h');
  }

  lemma AnswerGrows(v: NodeId, to: NodeId, t: Term, id: nat, readIndex: LogIndex, h: History, h': History)
    requires Answer(v, to, t, id, readIndex, h) && Extends(h, h')
    ensures Answer(v, to, t, id, readIndex, h')
  {
    if Echo(to, t, id, readIndex, h) {
      EchoGrows(to, t, id, readIndex, h, h');
    }
  }

  lemma PendingGrows(i: NodeId, sv: Server, h: History, h': History)
    requires PendingOk(i, sv, h) && Extends(h, h')
    ensures PendingOk(i, sv, h')
  {
    hide Answer;
    if sv.phase.Leading? && sv.phase.pending.Some? {
      var round := sv.phase.pending.value;
      forall v | v in round.acks ensures Answer(v, i, sv.term, round.id, round.readIndex, h') {
        AnswerGrows(v, i, sv.term, round.id, round.readIndex, h, h');
      }
    }
  }

  lemma ReadMessageGrows(m: Message, h: History, h': History)
    requires ReadMessageOk(m, h) && Extends(h, h')
    ensures ReadMessageOk(m, h')
  {
    hide Answer;
    if m.body.ReadIndexResponse? {
      AnswerGrows(m.from, m.to, m.term, m.body.ackId, m.body.ackReadIndex, h, h');
    }
  }

  /** A server that speaks in term `t` has voted in no later term. */
  lemma SpeaksFresh(voters: set<NodeId>, i: NodeId, sv: Server, h: History, id: nat)
    requires VoteOk(i, sv, h) && ElectionsBacked(voters, h) && RoundsOk(h)
    requires (sv.term, id) in h.rounds
    ensures Fresh(i, sv.term, id, h)
  {
    forall u | u in h.rounds[(sv.term, id)].elected && u > sv.term
      ensures u in h.elections && i !in h.elections[u].voters
    {
      assert BackedBy(voters, u, h.elections[u], h);
    }
  }

  lemma StartRoundOk(voters: set<NodeId>, i: NodeId, sv: Server, h: History)
    requires Fits(sv, StartRound) && RoundsOk(h)
    requires VoteOk(i, Effect(i, sv, StartRound).0, Record(h, i, sv, StartRound))
    requires ElectionsBacked(voters, Record(h, i, sv, StartRound))
    ensures RoundsOk(Record(h, i, sv, StartRound))
    ensures PendingOk(i, Effect(i, sv, StartRound).0, Record(h, i, sv, StartRound))
  {
    hide ElectionsBacked, VoteOk;
    SpeaksFresh(voters, i, Effect(i, sv, StartRound).0, Record(h, i, sv, StartRound), sv.phase.nextRead);
  }

  lemma AckReadOk(sv: Server, i: NodeId, m: Message, h: History)
    requires Fits(sv, AckRead(m)) && PendingOk(i, sv, h) && ReadMessageOk(m, h)
    requires m.term == sv.term && m.to == i
    requires m.body == ReadIndexResponse(sv.phase.pending.value.id, sv.phase.pending.value.readIndex)
    ensures PendingOk(i, Effect(i, sv, AckRead(m)).0, h)
  {
    hide Answer;
  }

  lemma SelfPendingOk(voters: set<NodeId>, net: set<Message>, i: NodeId, sv: Server, a: Action, h: History)
    requires Can(voters, net, i, sv, a) && RoundsOk(h) && PendingOk(i, sv, h)
    requires a.AckRead? ==> ReadMessageOk(a.m, h)
    requires Extends(h, Record(h, i, sv, a))
    requires VoteOk(i, Effect(i, sv, a).0, Record(h, i, sv, a)) && ElectionsBacked(voters, Record(h, i, sv, a))
    ensures PendingOk(i, Effect(i, sv, a).0, Record(h, i, sv, a)) && RoundsOk(Record(h, i, sv, a))
  {
    hide ElectionsBacked, VoteOk, Answer, MergeAt, Describes;
    PendingGrows(i, sv, h, Record(h, i, sv, a));
    if a.StartRound? {
      StartRoundOk(voters, i, sv, h);
    } else if a.AckRead? {
      AckReadOk(sv, i, a.m, h);
    }
  }

  lemma SelfConfirmedOk(voters: set<NodeId>, net: set<Message>, i: NodeId, sv: Server, a: Action, h: History)
    requires Can(voters, net, i, sv, a) && PhaseOk(i, sv, h) && ElectionsBacked(voters, h)
    requires PendingOk(i, sv, h) && ConfirmedOk(sv, h) && RoundsOk(h)
    ensures ConfirmedOk(Effect(i, sv, a).0, Record(h, i, sv, a))
  {
    hide BackedBy, Answer, MergeAt, Describes, HeldBy, VoteRequests;
    var sv', h' := Effect(i, sv, a).0, Record(h, i, sv, a);
    if a.Win? {
      FreshWin(voters, i, sv, h);
    } else if a.Confirm? {
      ConfirmKept(sv, h, h', sv');
    } else if sv'.phase.Leading? {
      assert forall n :: (sv.term, n) in h.confirmed ==> ConfirmedAt(sv.term, n, h') == ConfirmedAt(sv.term, n, h);
    }
  }

  lemma ConfirmKept(sv: Server, h: History, h': History, sv': Server)
    requires sv.phase.Leading? && sv.phase.pending.Some? && ConfirmedOk(sv, h) && h.confirmed <= h.rounds.Keys
    requires var round := sv.phase.pending.value;
             && (sv.term, round.id) in h.rounds && h.rounds[(sv.term, round.id)].readIndex == round.readIndex
             && h' == h.(confirmed := h.confirmed + {(sv.term, round.id)})
             && sv' == sv.(phase := sv.phase.(pending := None, confirmed := Max(sv.phase.confirmed, round.readIndex)))
    ensures ConfirmedOk(sv', h')
  {
    var round := sv.phase.pending.value;
    assert forall n :: ConfirmedAt(sv.term, n, h') == ConfirmedAt(sv.term, n, h);
    if sv'.phase.confirmed == sv.phase.confirmed {
      if sv.phase.confirmed > 0 {
        var n :| (sv.term, n) in h.confirmed && ConfirmedAt(sv.term, n, h) == sv.phase.confirmed;
        assert (sv.term, n) in h'.confirmed;
      }
    } else {
      assert (sv.term, round.id) in h'.confirmed;
    }
  }

  lemma OtherConfirmedOk(i: NodeId, j: NodeId, sv: Server, h: History, h': History)
    requires i != j && PhaseOk(j, sv, h) && ConfirmedOk(sv, h) && h.confirmed <= h.rounds.Keys
    requires Extends(h, h') && OnlyBy(i, h, h')
    ensures ConfirmedOk(sv, h')
  {
    if sv.phase.Leading? {
      assert forall n :: (sv.term, n) in h.confirmed ==> ConfirmedAt(sv.term, n, h') == ConfirmedAt(sv.term, n, h);
    }
  }

  lemma ReadMessageOut(voters: set<NodeId>, net: set<Message>, i: NodeId, sv: Server, a: Action, h: History, m: Message)
    requires Can(voters, net, i, sv, a) && VoteOk(i, sv, h) && PhaseOk(i, sv, h)
    requires ElectionsBacked(voters, h) && RoundsOk(h) && PendingOk(i, sv, h)
    requires a.ReplyRead? ==> ReadMessageOk(a.m, h)
    requires m in Effect(i, sv, a).1
    ensures ReadMessageOk(m, Record(h, i, sv, a))
  {
    hide ElectionsBacked, VoteOk, MergeAt, RoundsKnown;
    if a.ReplyRead? && a.m.term == sv.term {
      SpeaksFresh(voters, i, sv, h, a.m.body.readId);
    }
  }

  lemma ReadInvStep(s: State, h: History, i: NodeId, a: Action)
    requires Enabled(s, i, a) && ElectionInv(s, h) && ReadInv(s, h)
    requires Extends(h, Record(h, i, s.servers[i], a)) && OnlyBy(i, h, Record(h, i, s.servers[i], a))
    requires ElectionInv(Apply(s, i, a), Record(h, i, s.servers[i], a))
    ensures ReadInv(Apply(s, i, a), Record(h, i, s.servers[i], a))
  {
    hide Can, Record, Effect, Extends, VoteOk, ElectionInv, PendingOk, ReadMessageOk, RoundsOk, ElectionsBacked,
        PhaseOk;
    hide OnlyBy, ConfirmedOk;
    EnabledSelf(s, h, i, a);
    var sv, s', h' := s.servers[i], Apply(s, i, a), Record(h, i, s.servers[i], a);
    Delivered(s, i, a);
    ServerElectionOk(s', h', i);
    SelfPendingOk(s.voters, s.net, i, sv, a, h);
    SelfConfirmedOk(s.voters, s.net, i, sv, a, h);
    RoundsConfirmed(h);
    forall j | j in s'.servers ensures PendingOk(j, s'.servers[j], h') && ConfirmedOk(s'.servers[j], h') {
      if j != i {
        PendingGrows(j, s.servers[j], h, h');
        ServerElectionOk(s, h, j);
        OtherConfirmedOk(i, j, s.servers[j], h, h');
      }
    }
    forall m | m in s'.net ensures ReadMessageOk(m, h') {
      if m in s.net {
        ReadMessageGrows(m, h, h');
      } else {
        ReadMessageOut(s.voters, s.net, i, sv, a, h, m);
      }
    }
  }

  lemma ServerElectionOk(s: State, h: History, i: NodeId)
    requires ElectionInv(s, h) && i in s.servers
    ensures VoteOk(i, s.servers[i], h) && PhaseOk(i, s.servers[i], h) && ElectionsBacked(s.voters, h)
  {
    hide VotesJustified, ElectionsBacked, VoteMessagesOk;
  }

  lemma RoundsConfirmed(h: History)
    requires RoundsOk(h)
    ensures h.confirmed <= h.rounds.Keys
  {
  }

  /** A round whose acknowledgements are all fresh and form a majority was requested before
      any later term had a leader. */
  lemma FreshRoundSound(voters: set<NodeId>, t: Term, id: nat, acks: set<NodeId>, h: History, u: Term)
    requires ElectionsBacked(voters, h) && (t, id) in h.rounds
    requires Majority(voters, acks) && forall v :: v in acks ==> Fresh(v, t, id, h)
    requires u in h.rounds[(t, id)].elected
    requires RoundsOk(h)
    ensures u <= t
  {
    if u > t {
      assert BackedBy(voters, u, h.elections[u], h);
      var v := MajoritiesShare(voters, acks, h.elections[u].voters);
    }
  }
}
