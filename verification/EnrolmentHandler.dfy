/** The enrolment handler as one uninterrupted request on the store object: who is enrolled, and
    that a request that is not leaves nothing behind. */
module EnrolmentHandler {
  import opened Text
  import opened Store
  import opened StoreLaws
  import Sql = SqliteStore
  import E = Enrolment

  /** The answers of the handler, in the order it checks for them. */
  datatype Answer = Unknown | Used | Expired | Invalid | OriginExists | Lost | Enrolled(node: Id)

  function Max(a: int, b: int): int {
    if a < b then b else a
  }

  /** Removing a freshly created node again is exact: the store is what it was before. */
  lemma OrphanHealed(db: Db, id: Id, row: Id, node: Node, secret: string)
    requires Integrity(db) && row !in db.models && CreateNode(db, id, row, node).Some?
    ensures DeleteNode(SetNodeSecret(CreateNode(db, id, row, node).value, id, secret), id, true) == Some(db)
  {
    hide Integrity, OriginUsed, Purge, CreateNode, SetNodeSecret;
    var a := CreateNode(db, id, row, node).value;
    CreateNodeKeeps(db, id, row, node);
    Created(db, id, row, node);
    var b := SetNodeSecret(a, id, secret);
    SecretSet(a, id, secret);
    SetNodeKeeps(a, id, b.nodes[id]);
    Healed(db, b, id, row);
  }

  lemma SecretSet(a: Db, id: Id, secret: string)
    requires id in a.nodes
    ensures var b := SetNodeSecret(a, id, secret);
            id in b.nodes && b == a.(nodes := a.nodes[id := b.nodes[id]])
            && b.nodes[id] == a.nodes[id].(secret := Some(secret))
  {
  }

  lemma Healed(db: Db, b: Db, id: Id, row: Id)
    requires Integrity(db) && Integrity(b) && b == db.(nodes := b.nodes, models := b.models)
    requires id !in db.nodes && id in b.nodes && row !in db.models && row in b.models && b.models[row].node == id
    requires b.nodes - {id} == db.nodes && b.models - {row} == db.models
    ensures Purge(b, id) == Some(db)
  {
    hide Integrity, Purge, NodesPurged, OwnersPurged, RequestsPurged;
    PurgeExact(b, id);
    var t := Purge(b, id).value;
    SameNodeTables(db, b, t, id, row);
    SameOwners(db, b, t, id);
    SameRequests(db, b, t, id);
  }

  lemma Created(db: Db, id: Id, row: Id, node: Node)
    requires CreateNode(db, id, row, node).Some?
    ensures var a := CreateNode(db, id, row, node).value;
            id !in db.nodes && !OriginUsed(db.nodes, node.origin) && a.nodes == db.nodes[id := node]
            && a == db.(nodes := a.nodes, models := db.models[row := ModelRow(id, node.modelId, true)])
  {
    hide OriginUsed;
  }

  lemma SameNodeTables(db: Db, b: Db, t: Db, id: Id, row: Id)
    requires Integrity(db) && NodesPurged(b, t, id) && b.tokens == db.tokens
    requires id !in db.nodes && id in b.nodes && row !in db.models && row in b.models && b.models[row].node == id
    requires b.nodes - {id} == db.nodes && b.models - {row} == db.models
    ensures t.nodes == db.nodes && t.models == db.models && t.tokens == db.tokens
  {
    hide OriginsUnique, Served, KeysSound, ConversationsSound, MessagesSound, RequestsSound, KeysTargeted, ConversationsTargeted;
    assert t.models.Keys == db.models.Keys by {
      forall r | r in db.models ensures r in t.models {
        assert db.models[r] == (b.models - {row})[r];
      }
      forall r | r in t.models ensures r in db.models {
        assert r in b.models - {row};
      }
    }
    forall r | r in db.models ensures t.models[r] == db.models[r] {
      assert db.models[r] == (b.models - {row})[r];
    }
  }

  lemma SameOwners(db: Db, b: Db, t: Db, id: Id)
    requires Integrity(db) && Integrity(b) && id !in db.nodes && OwnersPurged(b, t, id)
    requires b.keys == db.keys && b.conversations == db.conversations && b.messages == db.messages
    ensures t.keys == db.keys && t.conversations == db.conversations && t.messages == db.messages
  {
    hide OriginsUnique, Served, ModelsSound, TokensSound, RequestsSound, KeysTargeted, ConversationsTargeted;
  }

  lemma SameRequests(db: Db, b: Db, t: Db, id: Id)
    requires Integrity(db) && Integrity(b) && id !in db.nodes && RequestsPurged(b, t, id)
    requires b.keys == db.keys && b.requests == db.requests
    ensures t.requests == db.requests
  {
    hide OriginsUnique, Served, ModelsSound, TokensSound, MessagesSound, ConversationsSound, KeysTargeted, ConversationsTargeted;
  }

  /** A token row consumable at the latest of several moments is so at each of them. */
  lemma Alive(db: Db, digest: string, pruned: int, checked: int, claimed: int)
    requires Integrity(db)
    ensures var t := PruneTokens(db, pruned).tokens;
            AnyConsumable(db.tokens, digest, Max(pruned, Max(checked, claimed))) <==>
            AnyConsumable(t, digest, checked) && AnyConsumable(t, digest, claimed)
  {
    hide Integrity, Refers;
    SoundTokens(db);
    var t := PruneTokens(db, pruned).tokens;
    if AnyConsumable(t, digest, checked) && AnyConsumable(t, digest, claimed) {
      var a :| a in t && Consumable(t[a], digest, checked);
      var b :| b in t && Consumable(t[b], digest, claimed);
      assert a == b;
      assert Consumable(db.tokens[a], digest, Max(pruned, Max(checked, claimed)));
    }
    if a :| a in db.tokens && Consumable(db.tokens[a], digest, Max(pruned, Max(checked, claimed))) {
      assert a in t && Consumable(t[a], digest, checked) && Consumable(t[a], digest, claimed);
    }
  }

  /** The token was used before. */
  predicate UsedUp(tokens: map<Id, Token>, digest: string) {
    exists t :: t in tokens && tokens[t].digest == digest && tokens[t].usedAt.Some?
  }

  lemma PruneFrame(db: Db, now: int, digest: string)
    ensures var t := PruneTokens(db, now); t == db.(tokens := t.tokens) && (UsedUp(t.tokens, digest) <==> UsedUp(db.tokens, digest))
  {
    var t := PruneTokens(db, now).tokens;
    if k :| k in db.tokens && db.tokens[k].digest == digest && db.tokens[k].usedAt.Some? {
      assert t[k] == db.tokens[k];
    }
  }

  lemma CreateRefused(db: Db, id: Id, row: Id, node: Node)
    requires id !in db.nodes && CreateNode(db, id, row, node).None?
    ensures OriginUsed(db.nodes, node.origin)
  {
    hide OriginUsed;
  }

  lemma ConsumeFrame(db: Db, digest: string, node: Id, now: int)
    requires node in db.nodes
    ensures var (answer, t) := ConsumeToken(db, digest, node, now);
            (answer == Refused <==> !AnyConsumable(db.tokens, digest, now)) && (answer == Refused ==> t == db)
            && answer != ForeignKeyError && t == db.(tokens := t.tokens)
  {
    hide AnyConsumable;
  }

  lemma NotConsumable(db: Db, digest: string, now: int)
    requires Integrity(db)
    ensures UsedUp(db.tokens, digest) ==> TokenDigestUsed(db.tokens, digest) && !AnyConsumable(db.tokens, digest, now)
    ensures AnyConsumable(db.tokens, digest, now) ==> TokenDigestUsed(db.tokens, digest)
  {
    hide Integrity;
    SoundTokens(db);
  }

  /** The token rows after the claim, in a store that agrees with the pruned one on them. */
  lemma ClaimedRow(db: Db, pruned: int, digest: string, node: Id, claimed: int, other: Db)
    requires Integrity(db) && AnyConsumable(PruneTokens(db, pruned).tokens, digest, claimed)
    requires other.tokens == PruneTokens(db, pruned).tokens && node in other.nodes
    ensures ConsumeToken(other, digest, node, claimed).1.tokens ==
            map t | t in db.tokens && !Stale(db.tokens[t], pruned) ::
              if db.tokens[t].digest == digest then db.tokens[t].(usedAt := Some(claimed), node := Some(node)) else db.tokens[t]
  {
    hide Integrity, Refers;
    SoundTokens(db);
  }

  /** The store with an enrolled node, before its token is claimed. */
  function Registered(db: Db, node: Id, row: Id, origin: string, modelId: string, secret: string): Db {
    db.(nodes := db.nodes[node := Node(origin, modelId, true, Some(secret))],
        models := db.models[row := ModelRow(node, modelId, true)])
  }

  /** Create the node, give it its secret, claim the token, and remove the node again when the claim
      is lost. */
  method Register(store: Sql.Store, digest: string, origin: string, modelId: string, secret: string, claimed: int, node: Id, row: Id)
    returns (answer: Answer)
    requires Integrity(store.View()) && node !in store.nodes && row !in store.models
    modifies store
    ensures answer == if OriginUsed(old(store.nodes), origin) then OriginExists
                      else if !AnyConsumable(old(store.tokens), digest, claimed) then Lost
                      else Enrolled(node)
    ensures !answer.Enrolled? ==> store.View() == old(store.View())
    ensures answer.Enrolled? ==>
            store.View() == ConsumeToken(Registered(old(store.View()), node, row, origin, modelId, secret), digest, node, claimed).1
    ensures Integrity(store.View())
  {
    hide Integrity, OriginUsed, AnyConsumable, Consumable, ConsumeToken, DeleteNode, SetNodeSecret, CreateNode;
    ghost var before := store.View();
    var made := Node(origin, modelId, true, None);
    var created := store.CreateNode(node, row, made);
    if !created {
      CreateRefused(before, node, row, made);
      return OriginExists;
    }
    Created(before, node, row, made);
    ghost var a := store.View();
    var _ := store.SetNodeSecret(node, secret);
    SecretSet(a, node, secret);
    SetNodeKeeps(a, node, store.nodes[node]);
    ghost var b := store.View();
    assert b == Registered(before, node, row, origin, modelId, secret);
    ConsumeTokenKeeps(b, digest, node, claimed);
    ConsumeFrame(b, digest, node, claimed);
    var consumption := store.ConsumeEnrollmentToken(digest, node, claimed);
    if consumption.Refused? {
      OrphanHealed(before, node, row, made, secret);
      var _, _ := store.DeleteNode(node, true);
      return Lost;
    }
    answer := Enrolled(node);
  }

  /** `pruned`, `checked` and `claimed` are the clock at the three calls that read it; `node` and
      `row` are random identifiers. The node is enrolled exactly when the token is unused and
      unexpired at the latest of them, the request is valid and its origin is new; otherwise the
      store is as if only the pruning had happened. */
  method Enrol(store: Sql.Store, digest: string, valid: bool, origin: string, modelId: string, secret: string,
               pruned: int, checked: int, claimed: int, node: Id, row: Id)
    returns (answer: Answer)
    requires Integrity(store.View()) && node !in store.nodes && row !in store.models
    modifies store
    ensures answer.Enrolled? <==>
            valid && !OriginUsed(old(store.nodes), origin)
            && AnyConsumable(old(store.tokens), digest, Max(pruned, Max(checked, claimed)))
    ensures answer.Enrolled? ==> answer.node == node
    ensures answer == Used <==> UsedUp(old(store.tokens), digest)
    ensures answer == Unknown <==> !TokenDigestUsed(PruneTokens(old(store.View()), pruned).tokens, digest)
    ensures answer == Expired <==>
            TokenDigestUsed(PruneTokens(old(store.View()), pruned).tokens, digest) && !UsedUp(old(store.tokens), digest)
            && !AnyConsumable(old(store.tokens), digest, Max(pruned, checked))
    ensures answer == Invalid <==> AnyConsumable(old(store.tokens), digest, Max(pruned, checked)) && !valid
    ensures answer == OriginExists <==>
            AnyConsumable(old(store.tokens), digest, Max(pruned, checked)) && valid && OriginUsed(old(store.nodes), origin)
    ensures answer == Lost <==>
            AnyConsumable(old(store.tokens), digest, Max(pruned, checked)) && valid && !OriginUsed(old(store.nodes), origin)
            && !AnyConsumable(old(store.tokens), digest, Max(pruned, Max(checked, claimed)))
    ensures !answer.Enrolled? ==> store.View() == PruneTokens(old(store.View()), pruned)
    ensures answer.Enrolled? ==>
            store.View().(tokens := old(store.tokens)) == Registered(old(store.View()), node, row, origin, modelId, secret)
    ensures answer.Enrolled? ==>
            store.tokens == map t | t in old(store.tokens) && !Stale(old(store.tokens)[t], pruned) ::
              if old(store.tokens)[t].digest == digest
              then old(store.tokens)[t].(usedAt := Some(claimed), node := Some(node)) else old(store.tokens)[t]
    ensures Integrity(store.View())
  {
    hide Integrity, OriginUsed, AnyConsumable, Consumable, ConsumeToken, PruneTokens, UsedUp, TokenDigestUsed;
    ghost var before := store.View();
    Alive(before, digest, pruned, checked, claimed);
    Alive(before, digest, pruned, checked, checked);
    TokenDeletionsKeep(before, "", pruned);
    PruneFrame(before, pruned, digest);
    store.PruneExpiredEnrollmentTokens(pruned);
    ghost var clean := store.View();
    NotConsumable(clean, digest, checked);
    NotConsumable(clean, digest, claimed);
    if !AnyConsumable(store.tokens, digest, checked) {
      return if !TokenDigestUsed(store.tokens, digest) then Unknown else if UsedUp(store.tokens, digest) then Used else Expired;
    }
    if !valid {
      return Invalid;
    }
    answer := Register(store, digest, origin, modelId, secret, claimed, node, row);
    if answer.Enrolled? {
      ghost var b := Registered(clean, node, row, origin, modelId, secret);
      ConsumeFrame(b, digest, node, claimed);
      ClaimedRow(before, pruned, digest, node, claimed, b);
    }
  }

  // ---- the handler as the attempt of a run -------------------------------------------------------------

  /** The next store call of attempt `a`. */
  ghost predicate Moves(a: nat, s: E.State, e: E.Event, t: E.State) {
    e.Advance? && e.attempt == a && E.Draws(s, e) && t == E.Step(s, e)
  }

  lemma AloneChecks(a: nat, s0: E.State, e1: E.Event, s1: E.State, e2: E.Event, s2: E.State)
    requires a in s0.attempts && s0.attempts[a].phase == E.Arrived && Moves(a, s0, e1, s1) && Moves(a, s1, e2, s2)
    ensures a in s2.attempts && s2.db == PruneTokens(s0.db, e1.now) && s2.attempts[a] == s0.attempts[a].(phase := s2.attempts[a].phase)
    ensures s2.attempts[a].phase ==
            if AnyConsumable(PruneTokens(s0.db, e1.now).tokens, s0.attempts[a].digest, e2.now) then E.Checked else E.Rejected
  {
    hide AnyConsumable, PruneTokens, E.Digests;
  }

  lemma AloneStays(a: nat, s: E.State, e: E.Event, t: E.State)
    requires a in s.attempts && Moves(a, s, e, t) && E.Finished(s.attempts[a].phase)
    ensures t == s
  {
  }

  lemma AloneCreates(a: nat, s: E.State, e: E.Event, t: E.State)
    requires a in s.attempts && s.attempts[a].phase == E.Checked && Moves(a, s, e, t)
    requires e.node !in s.db.nodes
    ensures var attempt := s.attempts[a];
            var made := CreateNode(s.db, e.node, e.row, Node(attempt.origin, attempt.modelId, true, None));
            a in t.attempts
            && if !attempt.valid || OriginUsed(s.db.nodes, attempt.origin)
               then t.db == s.db && t.attempts[a] == attempt.(phase := E.Rejected)
               else made == Some(t.db) && t.attempts[a] == attempt.(phase := E.Created(e.node))
  {
    hide OriginUsed, E.Digests;
  }

  lemma AloneSecures(a: nat, s: E.State, e: E.Event, t: E.State)
    requires a in s.attempts && s.attempts[a].phase.Created? && Moves(a, s, e, t)
    ensures var n := s.attempts[a].phase.node;
            a in t.attempts && t.db == SetNodeSecret(s.db, n, e.secret) && t.attempts[a] == s.attempts[a].(phase := E.Secured(n))
  {
    hide E.Digests;
  }

  lemma MovesAdvance(a: nat, s: E.State, e: E.Event, t: E.State)
    requires Moves(a, s, e, t)
    ensures e.Advance?
  {
  }

  lemma AloneClaims(a: nat, s: E.State, e5: E.Event, s5: E.State, e6: E.Event, s6: E.State, clean: Db, row: Id, secret: string)
    requires a in s.attempts && s.attempts[a].phase.Secured? && Moves(a, s, e5, s5) && Moves(a, s5, e6, s6)
    requires var attempt := s.attempts[a];
             Integrity(clean) && attempt.phase.node !in clean.nodes && row !in clean.models && !OriginUsed(clean.nodes, attempt.origin)
             && s.db == Registered(clean, attempt.phase.node, row, attempt.origin, attempt.modelId, secret)
    ensures var attempt := s.attempts[a];
            a in s6.attempts
            && if AnyConsumable(clean.tokens, attempt.digest, e5.now)
               then s6.attempts[a].phase == E.Succeeded(attempt.phase.node)
                    && s6.db == ConsumeToken(s.db, attempt.digest, attempt.phase.node, e5.now).1
               else s6.attempts[a].phase == E.Undone(attempt.phase.node) && s6.db == clean
  {
    hide OriginUsed, Integrity, E.Digests, AnyConsumable, ConsumeToken, DeleteNode, CreateNode, SetNodeSecret;
    var attempt := s.attempts[a];
    var id := attempt.phase.node;
    var made := Node(attempt.origin, attempt.modelId, true, None);
    ConsumeFrame(s.db, attempt.digest, id, e5.now);
    NewNode(clean, id, row, made);
    OrphanHealed(clean, id, row, made, secret);
    SecretGiven(clean, id, row, attempt.origin, attempt.modelId, secret);
  }

  lemma NewNode(db: Db, id: Id, row: Id, node: Node)
    requires id !in db.nodes && !OriginUsed(db.nodes, node.origin)
    ensures CreateNode(db, id, row, node).Some?
  {
    hide OriginUsed;
  }

  lemma SecretGiven(db: Db, id: Id, row: Id, origin: string, modelId: string, secret: string)
    requires CreateNode(db, id, row, Node(origin, modelId, true, None)).Some?
    ensures SetNodeSecret(CreateNode(db, id, row, Node(origin, modelId, true, None)).value, id, secret)
         == Registered(db, id, row, origin, modelId, secret)
  {
    hide OriginUsed;
  }

  /** An attempt whose store calls nobody interrupts succeeds exactly when the handler enrols, and leaves
      the store the handler leaves. */
  lemma AloneAgrees(a: nat, s0: E.State, e1: E.Event, s1: E.State, e2: E.Event, s2: E.State, e3: E.Event, s3: E.State,
                    e4: E.Event, s4: E.State, e5: E.Event, s5: E.State, e6: E.Event, s6: E.State)
    requires a in s0.attempts && s0.attempts[a].phase == E.Arrived && E.Good(s0)
    requires Moves(a, s0, e1, s1) && Moves(a, s1, e2, s2) && Moves(a, s2, e3, s3)
    requires Moves(a, s3, e4, s4) && Moves(a, s4, e5, s5) && Moves(a, s5, e6, s6)
    ensures var attempt := s0.attempts[a];
            a in s6.attempts && E.Finished(s6.attempts[a].phase)
            && (s6.attempts[a].phase.Succeeded? <==>
                  attempt.valid && !OriginUsed(s0.db.nodes, attempt.origin)
                  && AnyConsumable(s0.db.tokens, attempt.digest, Max(e1.now, Max(e2.now, e5.now))))
            && (s6.attempts[a].phase.Succeeded? ==>
                  s6.attempts[a].phase.node == e3.node
                  && s6.db == ConsumeToken(Registered(PruneTokens(s0.db, e1.now), e3.node, e3.row, attempt.origin, attempt.modelId, e4.secret),
                                           attempt.digest, e3.node, e5.now).1)
            && (!s6.attempts[a].phase.Succeeded? ==> s6.db == PruneTokens(s0.db, e1.now))
  {
    hide OriginUsed, Integrity, AnyConsumable, ConsumeToken, PruneTokens, Registered, Moves, E.Good, CreateNode, SetNodeSecret;
    MovesAdvance(a, s0, e1, s1);
    MovesAdvance(a, s1, e2, s2);
    MovesAdvance(a, s2, e3, s3);
    MovesAdvance(a, s3, e4, s4);
    MovesAdvance(a, s4, e5, s5);
    var attempt, clean := s0.attempts[a], PruneTokens(s0.db, e1.now);
    E.GoodIntegrity(s0);
    Alive(s0.db, attempt.digest, e1.now, e2.now, e5.now);
    TokenDeletionsKeep(s0.db, "", e1.now);
    PruneFrame(s0.db, e1.now, attempt.digest);
    AloneChecks(a, s0, e1, s1, e2, s2);
    if s2.attempts[a].phase == E.Checked {
      FreshDraw(a, s0, e1, s1, e2, s2, e3, s3);
      AloneCreates(a, s2, e3, s3);
      if s3.attempts[a].phase == E.Rejected {
        AloneStays(a, s3, e4, s4);
        AloneStays(a, s4, e5, s5);
        AloneStays(a, s5, e6, s6);
      } else {
        AloneSecures(a, s3, e4, s4);
        SecretGiven(s2.db, e3.node, e3.row, attempt.origin, attempt.modelId, e4.secret);
        AloneClaims(a, s4, e5, s5, e6, s6, clean, e3.row, e4.secret);
      }
    } else {
      AloneStays(a, s2, e3, s3);
      AloneStays(a, s3, e4, s4);
      AloneStays(a, s4, e5, s5);
      AloneStays(a, s5, e6, s6);
    }
  }

  /** A drawn identifier is not in the store. */
  lemma FreshDraw(a: nat, s0: E.State, e1: E.Event, s1: E.State, e2: E.Event, s2: E.State, e3: E.Event, s3: E.State)
    requires a in s0.attempts && E.Good(s0) && s0.attempts[a].phase == E.Arrived
    requires Moves(a, s0, e1, s1) && Moves(a, s1, e2, s2) && Moves(a, s2, e3, s3)
    ensures e3.node !in s2.db.nodes && e3.row !in s2.db.models
  {
    hide Integrity, PruneTokens, AnyConsumable, E.StayGone, E.Standing, E.Rows, E.Winners, E.OnceEach, E.Owners, E.Digests;
    PruneFrame(s0.db, e1.now, "");
  }
}
