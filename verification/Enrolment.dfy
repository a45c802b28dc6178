/** Node enrolment: attempts as programs of single store calls, interleaved in any order with each
    other and with whatever else changes the store. */
module Enrolment {
  import opened Text
  import opened Store
  import opened StoreLaws

  // ---- attempts and their steps -----------------------------------------------------------------

  /** How far an attempt is; from `Created` on it owns a node. */
  datatype Phase =
    | Arrived
    | Pruned
    | Checked
    | Rejected
    | Created(node: Id)
    | Secured(node: Id)
    | Orphaned(node: Id)
    | Undone(node: Id)
    | Succeeded(node: Id)
    | Crashed(node: Id)

  /** `valid` tells whether the request's other fields pass the checks of the handler. */
  datatype Attempt = Attempt(digest: string, valid: bool, origin: string, modelId: string, phase: Phase)

  datatype Claim = Claim(digest: string, attempt: nat, node: Id)

  /** The store and the attempts, and a record of the run: the node each attempt made, the
      successful claims in order, the digests of token rows that were deleted, the nodes others
      deleted, and every identifier and digest drawn so far. */
  datatype State = State(
    db: Db,
    attempts: map<nat, Attempt>,
    made: map<Id, nat>,
    claims: seq<Claim>,
    gone: set<string>,
    dropped: set<Id>,
    ids: set<Id>,
    digests: set<string>)

  /** `Advance` runs the next store call of an attempt; `node` and `row` are the identifiers drawn
      if that call creates a node. */
  datatype Event =
    | Others(op: Op)
    | Arrive(attempt: nat, request: Attempt)
    | Advance(attempt: nat, now: int, node: Id, row: Id, secret: string)

  function Digests(tokens: map<Id, Token>): set<string> {
    set t | t in tokens :: tokens[t].digest
  }

  /** The store takes a new content; rows and nodes that vanish are recorded. */
  function WithDb(s: State, db: Db): State {
    s.(db := db, gone := s.gone + (Digests(s.db.tokens) - Digests(db.tokens)))
  }

  function At(s: State, a: nat, phase: Phase): State
    requires a in s.attempts
  {
    s.(attempts := s.attempts[a := s.attempts[a].(phase := phase)])
  }

  /** Random identifiers and tokens are new; consuming is what attempts do. */
  predicate Draws(s: State, e: Event) {
    match e
    case Others(op) =>
      Unseen(s.db, op) && !op.Consume?
      && (op.AddNode? ==> op.id !in s.ids) && (op.AddToken? ==> op.digest !in s.digests)
    case Arrive(a, request) => a !in s.attempts && request.phase == Arrived
    case Advance(a, _, node, row, _) => a in s.attempts && node !in s.ids && row !in s.db.models
  }

  function OthersStep(s: State, op: Op): State {
    var t := Apply(s.db, op);
    WithDb(s, t).(
      dropped := s.dropped + (s.db.nodes.Keys - t.nodes.Keys),
      ids := if op.AddNode? then s.ids + {op.id} else s.ids,
      digests := if op.AddToken? then s.digests + {op.digest} else s.digests)
  }

  function CheckStep(s: State, a: nat, now: int): State
    requires a in s.attempts
  {
    At(s, a, if AnyConsumable(s.db.tokens, s.attempts[a].digest, now) then Checked else Rejected)
  }

  function CreateStep(s: State, a: nat, node: Id, row: Id): State
    requires a in s.attempts
  {
    var attempt := s.attempts[a];
    var created := CreateNode(s.db, node, row, Node(attempt.origin, attempt.modelId, true, None));
    if !attempt.valid || created.None? then At(s, a, Rejected)
    else At(WithDb(s, created.value), a, Created(node)).(made := s.made[node := a], ids := s.ids + {node})
  }

  function ClaimStep(s: State, a: nat, node: Id, now: int): State
    requires a in s.attempts
  {
    var digest := s.attempts[a].digest;
    var (answer, db) := ConsumeToken(s.db, digest, node, now);
    match answer
    case Consumed => At(WithDb(s, db), a, Succeeded(node)).(claims := s.claims + [Claim(digest, a, node)])
    case Refused => At(s, a, Orphaned(node))
    case ForeignKeyError => At(s, a, Crashed(node))
  }

  function RemoveStep(s: State, a: nat, node: Id): State
    requires a in s.attempts
  {
    var removed := DeleteNode(s.db, node, true);
    if removed.None? then At(s, a, Crashed(node)) else At(WithDb(s, removed.value), a, Undone(node))
  }

  function Step(s: State, e: Event): State
    requires Draws(s, e)
  {
    match e
    case Others(op) => OthersStep(s, op)
    case Arrive(a, request) => s.(attempts := s.attempts[a := request])
    case Advance(a, now, node, row, secret) =>
      match s.attempts[a].phase
      case Arrived => At(WithDb(s, PruneTokens(s.db, now)), a, Pruned)
      case Pruned => CheckStep(s, a, now)
      case Checked => CreateStep(s, a, node, row)
      case Created(n) => At(WithDb(s, SetNodeSecret(s.db, n, secret)), a, Secured(n))
      case Secured(n) => ClaimStep(s, a, n, now)
      case Orphaned(n) => RemoveStep(s, a, n)
      case _ => s
  }

  /** A store on which no attempt of this run has started. */
  predicate Initial(s: State) {
    Integrity(s.db) && s.attempts == map[] && s.made == map[] && s.claims == [] && s.gone == {} && s.dropped == {}
    && s.db.nodes.Keys <= s.ids && Digests(s.db.tokens) <= s.digests
  }

  predicate Reaches(first: State, events: seq<Event>, last: State)
    decreases |events|
  {
    if events == [] then first == last
    else Draws(first, events[0]) && Reaches(Step(first, events[0]), events[1..], last)
  }

  // ---- what every step keeps --------------------------------------------------------------------

  function Owned(phase: Phase): Option<Id> {
    match phase
    case Created(n) => Some(n)
    case Secured(n) => Some(n)
    case Orphaned(n) => Some(n)
    case Undone(n) => Some(n)
    case Succeeded(n) => Some(n)
    case Crashed(n) => Some(n)
    case _ => None
  }

  /** Everything in the store was drawn. */
  predicate Drawn(s: State) {
    s.db.nodes.Keys <= s.ids && s.made.Keys <= s.ids && s.dropped <= s.ids
    && Digests(s.db.tokens) <= s.digests && s.gone <= s.digests
  }

  /** A deleted token row never comes back. */
  predicate StayGone(s: State) {
    Digests(s.db.tokens) !! s.gone
  }

  predicate Owners(attempts: map<nat, Attempt>, made: map<Id, nat>) {
    (forall n :: n in made ==> made[n] in attempts && Owned(attempts[made[n]].phase) == Some(n))
    && (forall a :: a in attempts && Owned(attempts[a].phase).Some? ==>
          Owned(attempts[a].phase).value in made && made[Owned(attempts[a].phase).value] == a)
  }

  /** A node an attempt made is in the store until others delete it or the attempt removes it. */
  predicate Stands(s: State, n: Id)
    requires n in s.made && s.made[n] in s.attempts
  {
    var phase := s.attempts[s.made[n]].phase;
    (n in s.db.nodes <==> n !in s.dropped && !phase.Undone?) && (phase.Crashed? ==> n in s.dropped)
  }

  predicate Standing(s: State)
    requires Owners(s.attempts, s.made)
  {
    forall n :: n in s.made ==> Stands(s, n)
  }

  /** The row of a claimed token: used, and naming the node as long as that exists. */
  predicate Row(tokens: map<Id, Token>, nodes: set<Id>, c: Claim) {
    exists t :: t in tokens && tokens[t].digest == c.digest && tokens[t].usedAt.Some?
                && tokens[t].node == if c.node in nodes then Some(c.node) else None
  }

  predicate Rows(db: Db, claims: seq<Claim>) {
    forall i :: 0 <= i < |claims| ==> Row(db.tokens, db.nodes.Keys, claims[i])
  }

  predicate Winners(attempts: map<nat, Attempt>, claims: seq<Claim>) {
    (forall i :: 0 <= i < |claims| ==>
       claims[i].attempt in attempts && attempts[claims[i].attempt].phase == Succeeded(claims[i].node)
       && attempts[claims[i].attempt].digest == claims[i].digest)
    && (forall a :: a in attempts && attempts[a].phase.Succeeded? ==>
          Claim(attempts[a].digest, a, attempts[a].phase.node) in claims)
  }

  predicate OnceEach(claims: seq<Claim>) {
    forall i, j :: 0 <= i < j < |claims| ==> claims[i].digest != claims[j].digest
  }

  predicate Good(s: State) {
    Integrity(s.db) && Drawn(s) && StayGone(s) && Owners(s.attempts, s.made) && Standing(s)
    && Rows(s.db, s.claims) && Winners(s.attempts, s.claims) && OnceEach(s.claims)
  }

  // ---- what store operations do to token rows -------------------------------------------------

  /** Rows keep their content, but for references to nodes that are gone; used rows stay; a new
      row belongs to a new token. */
  predicate Carried(a: map<Id, Token>, b: map<Id, Token>, nodes: set<Id>, added: set<string>) {
    (forall t :: t in a && t in b ==> b[t] == if Refers(a[t].node, nodes) then a[t] else a[t].(node := None))
    && (forall t :: t in a && a[t].usedAt.Some? ==> t in b)
    && (forall t :: t in b && t !in a ==> b[t].digest in added && b[t].usedAt.None?)
  }

  function NewDigests(op: Op): set<string> {
    if op.AddToken? then {op.digest} else {}
  }

  lemma SameTokens(db: Db, nodes: set<Id>)
    requires Integrity(db) && db.nodes.Keys <= nodes
    ensures Carried(db.tokens, db.tokens, nodes, {})
  {
    hide Integrity;
    SoundTokens(db);
  }

  lemma TokensCarried(db: Db, id: Id, nodes: set<Id>)
    requires Integrity(db) && nodes == db.nodes.Keys - {id}
    ensures Carried(db.tokens, TokensWithout(db.tokens, id), nodes, {})
  {
    hide Integrity;
    SoundTokens(db);
  }

  lemma FewerCarried(db: Db, fewer: map<Id, Token>)
    requires Integrity(db)
    requires forall t :: t in fewer ==> t in db.tokens && fewer[t] == db.tokens[t]
    requires forall t :: t in db.tokens && db.tokens[t].usedAt.Some? ==> t in fewer
    ensures Carried(db.tokens, fewer, db.nodes.Keys, {})
  {
    hide Integrity;
    SoundTokens(db);
  }

  lemma CreateTokenCarried(db: Db, id: Id, digest: string, expiresAt: int)
    requires Integrity(db) && CreateToken(db, id, digest, expiresAt).Some?
    ensures Carried(db.tokens, CreateToken(db, id, digest, expiresAt).value.tokens, db.nodes.Keys, {digest})
  {
    hide Integrity;
    SoundTokens(db);
  }

  lemma DropNodeEffects(db: Db, id: Id, purge: bool)
    requires Integrity(db)
    ensures DeleteNode(db, id, purge).Some?
    ensures var t := DeleteNode(db, id, purge).value;
            Carried(db.tokens, t.tokens, t.nodes.Keys, {}) && (t.nodes == db.nodes || t.nodes == db.nodes - {id})
            && (purge ==> id !in t.nodes)
  {
    hide Integrity, HasKeys, HasConversations, HasRequests, ForgetKeys, RequestsWithout, ModelsWithout, TokensWithout;
    hide Carried, DeleteRequestsOf, DeleteKeysOf, DeleteConversationsOf;
    DeleteNodeKeeps(db, id, purge);
    SameTokens(db, db.nodes.Keys);
    TokensCarried(db, id, db.nodes.Keys - {id});
    assert (db.nodes - {id}).Keys == db.nodes.Keys - {id};
    PurgeBefore(db, id);
  }

  lemma PurgeBefore(db: Db, id: Id)
    ensures var t := DeleteConversationsOf(DeleteKeysOf(DeleteRequestsOf(db, id), id), id);
            t.nodes == db.nodes && t.tokens == db.tokens
  {
  }

  function NewNodes(op: Op): set<Id> {
    if op.AddNode? then {op.id} else {}
  }

  function DeadNodes(op: Op): set<Id> {
    if op.DropNode? then {op.id} else {}
  }

  lemma OpNodes(db: Db, op: Op)
    requires Integrity(db)
    ensures Apply(db, op).nodes.Keys <= db.nodes.Keys + NewNodes(op)
    ensures db.nodes.Keys - DeadNodes(op) <= Apply(db, op).nodes.Keys
  {
    hide Integrity, Carried, HasKeys, HasConversations, HasRequests, ForgetKeys, RequestsWithout, ModelsWithout;
    hide TokensWithout, DeleteNode, OriginUsed, ModelTaken, DigestUsed, TokenDigestUsed, HasOther, Refers;
    hide AnyConsumable, Stale, Consumable;
    if op.DropNode? { DropNodeEffects(db, op.id, op.purge); }
  }

  predicate TouchesTokens(op: Op) {
    op.AddToken? || op.DropToken? || op.Prune? || op.Consume? || op.DropNode?
  }

  lemma TokensUntouched(db: Db, op: Op)
    requires !TouchesTokens(op)
    ensures Apply(db, op).tokens == db.tokens
  {
    hide OriginUsed, ModelTaken, DigestUsed, HasOther, Refers;
  }

  /** What an operation other than consuming does to the token rows. */
  lemma OpCarries(db: Db, op: Op)
    requires Integrity(db) && !op.Consume?
    ensures Carried(db.tokens, Apply(db, op).tokens, Apply(db, op).nodes.Keys, NewDigests(op))
  {
    hide Integrity, Carried, DeleteNode, TokenDigestUsed;
    OpNodes(db, op);
    var t := Apply(db, op);
    if op.DropNode? {
      DropNodeEffects(db, op.id, op.purge);
    } else if op.AddToken? {
      SameTokens(db, db.nodes.Keys);
      MoreDigests(db.tokens, db.nodes.Keys, {op.digest});
      if CreateToken(db, op.id, op.digest, op.expiresAt).Some? {
        CreateTokenCarried(db, op.id, op.digest, op.expiresAt);
      }
    } else if op.DropToken? || op.Prune? {
      FewerCarried(db, t.tokens);
    } else {
      hide Apply;
      TokensUntouched(db, op);
      SameTokens(db, t.nodes.Keys);
    }
  }

  lemma MoreDigests(a: map<Id, Token>, nodes: set<Id>, added: set<string>)
    requires Carried(a, a, nodes, {})
    ensures Carried(a, a, nodes, added)
  {
  }

  lemma RowCarried(a: map<Id, Token>, b: map<Id, Token>, before: set<Id>, after: set<Id>, added: set<string>, c: Claim)
    requires Carried(a, b, after, added) && Row(a, before, c)
    requires c.node in after ==> c.node in before
    ensures Row(b, after, c)
  {
    var t :| t in a && a[t].digest == c.digest && a[t].usedAt.Some? && a[t].node == if c.node in before then Some(c.node) else None;
    assert t in b;
  }

  // ---- steps of others ----------------------------------------------------------------------------

  lemma DigestsCarried(a: map<Id, Token>, b: map<Id, Token>, nodes: set<Id>, added: set<string>)
    requires Carried(a, b, nodes, added)
    ensures Digests(b) <= Digests(a) + added
  {
    forall t | t in b ensures b[t].digest in Digests(a) + added {
      if t in a { assert a[t].digest in Digests(a); }
    }
  }

  /** Every claim's node was drawn. */
  lemma ClaimDrawn(s: State, i: nat)
    requires Good(s) && i < |s.claims|
    ensures s.claims[i].node in s.ids
  {
    hide Integrity, StayGone, Standing, Rows, OnceEach, Digests;
    assert Owned(s.attempts[s.claims[i].attempt].phase) == Some(s.claims[i].node);
  }

  lemma RowsKept(s: State, op: Op)
    requires Good(s) && !op.Consume? && (op.AddNode? ==> op.id !in s.ids)
    ensures Rows(Apply(s.db, op), s.claims)
  {
    hide Integrity, StayGone, Standing, Owners, Winners, Drawn, OnceEach, Carried, Row, Apply;
    var t := Apply(s.db, op);
    OpNodes(s.db, op);
    OpCarries(s.db, op);
    forall i | 0 <= i < |s.claims| ensures Row(t.tokens, t.nodes.Keys, s.claims[i]) {
      ClaimDrawn(s, i);
      RowCarried(s.db.tokens, t.tokens, s.db.nodes.Keys, t.nodes.Keys, NewDigests(op), s.claims[i]);
    }
  }

  lemma StandingKept(s: State, op: Op)
    requires Good(s) && (op.AddNode? ==> op.id !in s.ids)
    ensures Standing(OthersStep(s, op))
  {
    hide Integrity, StayGone, Winners, OnceEach, Rows, Apply, Digests;
    OpNodes(s.db, op);
  }

  lemma OthersKeep(s: State, op: Op)
    requires Good(s) && Draws(s, Others(op))
    ensures Good(OthersStep(s, op))
  {
    hide Integrity, Standing, Owners, Winners, OnceEach, Rows, Carried, Apply, Digests, Unseen;
    var t := Apply(s.db, op);
    ApplyKeeps(s.db, op);
    OpNodes(s.db, op);
    OpCarries(s.db, op);
    DigestsCarried(s.db.tokens, t.tokens, t.nodes.Keys, NewDigests(op));
    RowsKept(s, op);
    StandingKept(s, op);
  }

  // ---- steps of an attempt ------------------------------------------------------------------------

  /** Moving on without changing the store. */
  lemma PhaseMoves(s: State, a: nat, phase: Phase)
    requires Good(s) && a in s.attempts && Owned(phase) == Owned(s.attempts[a].phase)
    requires !phase.Succeeded? && !s.attempts[a].phase.Succeeded? && !phase.Undone? && !s.attempts[a].phase.Undone?
    requires phase.Crashed? ==> phase.node in s.dropped
    ensures Good(At(s, a, phase))
  {
    hide Integrity, OnceEach, Rows, Digests;
  }

  lemma CreateKeeps(s: State, a: nat, node: Id, row: Id)
    requires Good(s) && a in s.attempts && s.attempts[a].phase == Checked && node !in s.ids && row !in s.db.models
    ensures Good(CreateStep(s, a, node, row))
  {
    hide Integrity, StayGone, OnceEach, Rows, Digests, Standing, Winners, Owners, OriginUsed, Good, Drawn;
    var attempt := s.attempts[a];
    var n := Node(attempt.origin, attempt.modelId, true, None);
    if attempt.valid && CreateNode(s.db, node, row, n).Some? {
      var op := AddNode(node, row, n);
      OthersKeep(s, op);
      var t := OthersStep(s, op);
      assert t.dropped == s.dropped;
      assert CreateStep(s, a, node, row) == At(t, a, Created(node)).(made := s.made[node := a]);
      Makes(s, t, a, node);
    } else {
      PhaseMoves(s, a, Rejected);
    }
  }

  lemma Makes(s: State, t: State, a: nat, node: Id)
    requires Good(s) && Good(t) && node !in s.ids && node in t.db.nodes && t.dropped == s.dropped
    requires t.attempts == s.attempts && t.made == s.made && t.ids == s.ids + {node}
    requires a in s.attempts && s.attempts[a].phase == Checked
    ensures Good(At(t, a, Created(node)).(made := s.made[node := a]))
  {
    hide Integrity, OnceEach, Rows, Digests;
  }

  lemma SecretKeeps(s: State, a: nat, node: Id, secret: string)
    requires Good(s) && a in s.attempts && s.attempts[a].phase == Created(node)
    ensures Good(At(WithDb(s, SetNodeSecret(s.db, node, secret)), a, Secured(node)))
  {
    hide Integrity, StayGone, OnceEach, Rows, Digests, Standing, Winners, Owners, Good, Drawn;
    var op := Secret(node, secret);
    OthersKeep(s, op);
    assert Apply(s.db, op).nodes.Keys == s.db.nodes.Keys;
    assert OthersStep(s, op) == WithDb(s, SetNodeSecret(s.db, node, secret));
    PhaseMoves(OthersStep(s, op), a, Secured(node));
  }

  lemma PruneKeeps(s: State, a: nat, now: int)
    requires Good(s) && a in s.attempts && s.attempts[a].phase == Arrived
    ensures Good(At(WithDb(s, PruneTokens(s.db, now)), a, Pruned))
  {
    hide Integrity, StayGone, OnceEach, Rows, Digests, Standing, Winners, Owners, Good, Drawn, Stale;
    var op := Prune(now);
    OthersKeep(s, op);
    assert OthersStep(s, op) == WithDb(s, PruneTokens(s.db, now));
    PhaseMoves(OthersStep(s, op), a, Pruned);
  }

  lemma RemoveKeeps(s: State, a: nat, node: Id)
    requires Good(s) && a in s.attempts && s.attempts[a].phase == Orphaned(node)
    ensures Good(RemoveStep(s, a, node))
  {
    hide Integrity, StayGone, OnceEach, Rows, Digests, Standing, Winners, Owners, Good, Drawn, DeleteNode;
    var op := DropNode(node, true);
    OthersKeep(s, op);
    assert Integrity(s.db) by { GoodIntegrity(s); }
    DropNodeEffects(s.db, node, true);
    var t := OthersStep(s, op);
    assert RemoveStep(s, a, node) == At(t.(dropped := s.dropped), a, Undone(node));
    Undoes(s, t, a, node);
  }

  lemma GoodIntegrity(s: State)
    requires Good(s)
    ensures Integrity(s.db)
  {
    hide Integrity, StayGone, OnceEach, Rows, Standing, Winners, Owners, Drawn;
  }

  lemma Undoes(s: State, t: State, a: nat, node: Id)
    requires Good(s) && Good(t) && node !in t.db.nodes && t.dropped == s.dropped + (s.db.nodes.Keys - t.db.nodes.Keys)
    requires s.db.nodes.Keys - {node} <= t.db.nodes.Keys
    requires t.attempts == s.attempts && t.made == s.made
    requires a in s.attempts && s.attempts[a].phase == Orphaned(node)
    ensures Good(At(t.(dropped := s.dropped), a, Undone(node)))
  {
    hide Integrity, OnceEach, Rows, Digests;
  }

  // ---- the claim -----------------------------------------------------------------------------------

  /** A claimed token cannot be consumed again. */
  lemma ClaimedRefused(s: State, i: nat, now: int)
    requires Good(s) && i < |s.claims|
    ensures !AnyConsumable(s.db.tokens, s.claims[i].digest, now)
  {
    hide Integrity, StayGone, OnceEach, Standing, Winners, Owners, Drawn;
    SoundTokens(s.db);
    assert Row(s.db.tokens, s.db.nodes.Keys, s.claims[i]);
  }

  lemma ClaimDb(s: State, digest: string, node: Id, now: int)
    requires Good(s) && ConsumeToken(s.db, digest, node, now).0.Consumed?
    ensures var t := ConsumeToken(s.db, digest, node, now).1;
            Digests(t.tokens) == Digests(s.db.tokens) && t.nodes == s.db.nodes && Rows(t, s.claims)
  {
    hide Integrity, StayGone, OnceEach, Standing, Winners, Owners, Drawn, AnyConsumable;
    var t := ConsumeToken(s.db, digest, node, now).1;
    forall i | 0 <= i < |s.claims| ensures Row(t.tokens, t.nodes.Keys, s.claims[i]) {
      var c := s.claims[i];
      assert Row(s.db.tokens, s.db.nodes.Keys, c);
      var k :| k in s.db.tokens && s.db.tokens[k].digest == c.digest && s.db.tokens[k].usedAt.Some?
               && s.db.tokens[k].node == if c.node in s.db.nodes.Keys then Some(c.node) else None;
      assert t.tokens[k] == s.db.tokens[k];
    }
    forall k | k in s.db.tokens ensures t.tokens[k].digest == s.db.tokens[k].digest {
    }
    assert Digests(t.tokens) == Digests(s.db.tokens);
  }

  lemma ClaimRow(db: Db, digest: string, node: Id, now: int, c: Claim)
    requires ConsumeToken(db, digest, node, now).0.Consumed? && c.digest == digest && c.node == node
    ensures var t := ConsumeToken(db, digest, node, now).1; Row(t.tokens, t.nodes.Keys, c)
  {
    var t := ConsumeToken(db, digest, node, now).1;
    var k :| k in db.tokens && Consumable(db.tokens[k], digest, now);
    assert t.tokens[k].digest == digest;
  }

  lemma Wins(s: State, a: nat, node: Id)
    requires a in s.attempts && s.attempts[a].phase == Secured(node)
    requires Winners(s.attempts, s.claims) && OnceEach(s.claims) && Owners(s.attempts, s.made) && Standing(s)
    requires forall i :: 0 <= i < |s.claims| ==> s.claims[i].digest != s.attempts[a].digest
    ensures var t := At(s, a, Succeeded(node)).(claims := s.claims + [Claim(s.attempts[a].digest, a, node)]);
            Winners(t.attempts, t.claims) && OnceEach(t.claims) && Owners(t.attempts, t.made) && Standing(t)
  {
  }

  lemma ClaimKeeps(s: State, a: nat, node: Id, now: int)
    requires Good(s) && a in s.attempts && s.attempts[a].phase == Secured(node)
    ensures Good(ClaimStep(s, a, node, now))
  {
    hide Integrity, StayGone, OnceEach, Standing, Winners, Owners, Drawn, AnyConsumable, Digests, Row, Consumable;
    var digest := s.attempts[a].digest;
    var (answer, t) := ConsumeToken(s.db, digest, node, now);
    if answer.Consumed? {
      ConsumeTokenKeeps(s.db, digest, node, now);
      ClaimDb(s, digest, node, now);
      ClaimRow(s.db, digest, node, now, Claim(digest, a, node));
      forall i | 0 <= i < |s.claims| ensures s.claims[i].digest != digest {
        ClaimedRefused(s, i, now);
      }
      var mid := WithDb(s, t);
      SameRecord(s, t);
      Wins(mid, a, node);
      SameDrawn(mid, a, node);
    } else if answer.Refused? {
      PhaseMoves(s, a, Orphaned(node));
    } else {
      GoneMeansDropped(s, a, node);
      PhaseMoves(s, a, Crashed(node));
    }
  }

  lemma SameRecord(s: State, t: Db)
    requires Good(s) && t.nodes == s.db.nodes && Digests(t.tokens) == Digests(s.db.tokens)
    ensures var mid := WithDb(s, t); mid.gone == s.gone && Drawn(mid) && StayGone(mid) && Standing(mid)
  {
    hide Integrity, OnceEach, Winners, Digests, Rows;
  }

  lemma SameDrawn(s: State, a: nat, node: Id)
    requires a in s.attempts && Drawn(s) && StayGone(s)
    ensures var t := At(s, a, Succeeded(node)).(claims := s.claims + [Claim(s.attempts[a].digest, a, node)]);
            Drawn(t) && StayGone(t)
  {
  }

  lemma GoneMeansDropped(s: State, a: nat, node: Id)
    requires Good(s) && a in s.attempts && s.attempts[a].phase == Secured(node) && node !in s.db.nodes
    ensures node in s.dropped
  {
    hide Integrity, StayGone, OnceEach, Winners, Drawn, Rows;
    assert Stands(s, node);
  }

  lemma ArriveKeeps(s: State, a: nat, request: Attempt)
    requires Good(s) && Draws(s, Arrive(a, request))
    ensures Good(s.(attempts := s.attempts[a := request]))
  {
    hide Integrity, OnceEach, Rows, Digests;
  }

  lemma StepKeeps(s: State, e: Event)
    requires Good(s) && Draws(s, e)
    ensures Good(Step(s, e))
  {
    hide Good, OthersStep, WithDb, At, CreateStep, ClaimStep, RemoveStep;
    match e {
      case Others(op) => OthersKeep(s, op);
      case Arrive(a, request) => ArriveKeeps(s, a, request);
      case Advance(a, now, node, row, secret) =>
        match s.attempts[a].phase {
          case Arrived => PruneKeeps(s, a, now);
          case Pruned => PhaseMoves(s, a, if AnyConsumable(s.db.tokens, s.attempts[a].digest, now) then Checked else Rejected);
          case Checked => CreateKeeps(s, a, node, row);
          case Created(n) => SecretKeeps(s, a, n, secret);
          case Secured(n) => ClaimKeeps(s, a, n, now);
          case Orphaned(n) => RemoveKeeps(s, a, n);
          case _ =>
        }
    }
  }

  lemma InitialGood(s: State)
    requires Initial(s)
    ensures Good(s)
  {
    hide Integrity;
  }

  lemma {:induction false} ReachableGood(first: State, events: seq<Event>, last: State)
    requires Good(first) && Reaches(first, events, last)
    ensures Good(last)
    decreases |events|
  {
    hide Good, Step, Draws;
    if events != [] {
      StepKeeps(first, events[0]);
      ReachableGood(Step(first, events[0]), events[1..], last);
    }
  }

  // ---- the results -------------------------------------------------------------------------------

  predicate Finished(phase: Phase) {
    phase.Rejected? || phase.Undone? || phase.Succeeded? || phase.Crashed?
  }

  /** Whatever the interleaving, a token is consumed at most once, and never both consumed and
      revoked or pruned: the row of a consumed token stays, marked as used and naming the node of
      its one winner until that node is deleted. */
  lemma TokenConsumedOnce(first: State, events: seq<Event>, last: State)
    requires Initial(first) && Reaches(first, events, last)
    ensures forall i, j :: 0 <= i < j < |last.claims| ==> last.claims[i].digest != last.claims[j].digest
    ensures forall i :: 0 <= i < |last.claims| ==> last.claims[i].digest !in last.gone
    ensures forall i :: 0 <= i < |last.claims| ==> Row(last.db.tokens, last.db.nodes.Keys, last.claims[i])
  {
    InitialGood(first);
    ReachableGood(first, events, last);
    hide Integrity, Drawn, Owners, Standing, Winners;
    forall i | 0 <= i < |last.claims| ensures last.claims[i].digest !in last.gone {
      assert Row(last.db.tokens, last.db.nodes.Keys, last.claims[i]);
      assert last.claims[i].digest in Digests(last.db.tokens);
    }
  }

  /** Once every attempt has finished, the nodes that attempts created and nobody else deleted are
      in the store exactly when their attempt's claim succeeded; no orphan is left behind. */
  lemma SurvivorsAreWinners(first: State, events: seq<Event>, last: State)
    requires Initial(first) && Reaches(first, events, last)
    requires forall a :: a in last.attempts ==> Finished(last.attempts[a].phase)
    ensures forall n :: n in last.made && n !in last.dropped ==>
              (n in last.db.nodes <==> exists i :: 0 <= i < |last.claims| && last.claims[i].node == n)
    ensures forall i :: 0 <= i < |last.claims| ==>
              last.claims[i].node in last.made && last.made[last.claims[i].node] == last.claims[i].attempt
  {
    InitialGood(first);
    ReachableGood(first, events, last);
    hide Integrity, Drawn, Rows, StayGone, Reaches;
    forall n | n in last.made && n !in last.dropped
      ensures n in last.db.nodes <==> exists i :: 0 <= i < |last.claims| && last.claims[i].node == n {
      SurvivorWins(last, n);
    }
    forall i | 0 <= i < |last.claims|
      ensures last.claims[i].node in last.made && last.made[last.claims[i].node] == last.claims[i].attempt {
      assert Owned(last.attempts[last.claims[i].attempt].phase) == Some(last.claims[i].node);
    }
  }

  lemma SurvivorWins(s: State, n: Id)
    requires Good(s) && n in s.made && n !in s.dropped && Finished(s.attempts[s.made[n]].phase)
    ensures n in s.db.nodes <==> exists i :: 0 <= i < |s.claims| && s.claims[i].node == n
  {
    hide Integrity, Drawn, Rows, StayGone, OnceEach;
    assert Stands(s, n);
    var a := s.made[n];
    if n in s.db.nodes {
      assert s.attempts[a].phase == Succeeded(n);
      assert Claim(s.attempts[a].digest, a, n) in s.claims;
    }
    if i :| 0 <= i < |s.claims| && s.claims[i].node == n {
      assert Owned(s.attempts[s.claims[i].attempt].phase) == Some(n);
    }
  }
}
