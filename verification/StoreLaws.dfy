/** Every operation of the store keeps its integrity; opening a database establishes it; purging a
    node removes exactly what belongs to it. */
module StoreLaws {
  import opened Text
  import opened Store

  // ---- more nodes never break a reference -------------------------------------------------------

  lemma NodesGrow(db: Db, more: set<Id>)
    requires db.nodes.Keys <= more
    requires ModelsSound(db.nodes.Keys, db.models) && KeysSound(db.nodes.Keys, db.keys)
    requires ConversationsSound(db.nodes.Keys, db.conversations) && TokensSound(db.nodes.Keys, db.tokens)
    requires RequestsSound(db.nodes.Keys, db.keys.Keys, db.requests)
    ensures ModelsSound(more, db.models) && KeysSound(more, db.keys)
    ensures ConversationsSound(more, db.conversations) && TokensSound(more, db.tokens)
    ensures RequestsSound(more, db.keys.Keys, db.requests)
  {
  }

  lemma MoreModelsServe(nodes: set<Id>, models: map<Id, ModelRow>, more: map<Id, ModelRow>)
    requires Served(nodes, models)
    requires forall r :: r in models ==> r in more && more[r].node == models[r].node
    ensures Served(nodes, more)
  {
    forall n | n in nodes ensures Serves(more, n) {
      assert Serves(models, n);
      var r :| r in models && models[r].node == n;
      assert more[r].node == n;
    }
  }

  // ---- nodes and models -----------------------------------------------------------------------

  lemma CreateNodeModels(nodes: set<Id>, models: map<Id, ModelRow>, id: Id, row: Id, modelId: string)
    requires ModelsSound(nodes, models) && Served(nodes, models) && id !in nodes && row !in models
    ensures var t := models[row := ModelRow(id, modelId, true)]; ModelsSound(nodes + {id}, t) && Served(nodes + {id}, t)
  {
    var t := models[row := ModelRow(id, modelId, true)];
    MoreModelsServe(nodes, models, t);
    assert t[row].node == id;
    assert Serves(t, id);
  }

  /** `row` stands for a random identifier, which is new. */
  lemma CreateNodeKeeps(db: Db, id: Id, row: Id, node: Node)
    requires Integrity(db) && row !in db.models && CreateNode(db, id, row, node).Some?
    ensures Integrity(CreateNode(db, id, row, node).value)
  {
    hide ModelsSound, Served, KeysSound, ConversationsSound, MessagesSound, RequestsSound, TokensSound;
    hide KeysTargeted, ConversationsTargeted;
    NodesGrow(db, db.nodes.Keys + {id});
    CreateNodeModels(db.nodes.Keys, db.models, id, row, node.modelId);
    assert db.nodes[id := node].Keys == db.nodes.Keys + {id};
  }

  /** A change of a node's row other than its id and origin. */
  lemma SetNodeKeeps(db: Db, id: Id, node: Node)
    requires Integrity(db) && id in db.nodes && node.origin == db.nodes[id].origin
    ensures Integrity(db.(nodes := db.nodes[id := node]))
  {
    hide ModelsSound, Served, KeysSound, ConversationsSound, MessagesSound, RequestsSound, TokensSound;
    hide KeysTargeted, ConversationsTargeted;
    assert db.nodes[id := node].Keys == db.nodes.Keys;
  }

  lemma SetModels(db: Db, models: map<Id, ModelRow>)
    requires Integrity(db) && ModelsSound(db.nodes.Keys, models) && Served(db.nodes.Keys, models)
    ensures Integrity(db.(models := models))
  {
    hide ModelsSound, Served, KeysSound, ConversationsSound, MessagesSound, RequestsSound, TokensSound;
    hide KeysTargeted, ConversationsTargeted, OriginsUnique;
  }

  lemma AddNodeModelKeeps(db: Db, node: Id, row: Id, modelId: string)
    requires Integrity(db) && AddNodeModel(db, node, row, modelId).Some?
    ensures Integrity(AddNodeModel(db, node, row, modelId).value)
  {
    hide KeysSound, ConversationsSound, MessagesSound, RequestsSound, TokensSound;
    hide KeysTargeted, ConversationsTargeted, OriginsUnique, Served;
    var models := db.models[row := ModelRow(node, modelId, true)];
    MoreModelsServe(db.nodes.Keys, db.models, models);
    SetModels(db, models);
  }

  lemma SetNodeModelEnabledKeeps(db: Db, node: Id, row: Id, enabled: bool)
    requires Integrity(db)
    ensures Integrity(SetNodeModelEnabled(db, node, row, enabled))
  {
    hide KeysSound, ConversationsSound, MessagesSound, RequestsSound, TokensSound;
    hide KeysTargeted, ConversationsTargeted, OriginsUnique, Served;
    if row in db.models && db.models[row].node == node {
      var models := db.models[row := db.models[row].(enabled := enabled)];
      MoreModelsServe(db.nodes.Keys, db.models, models);
      SetModels(db, models);
    }
  }

  /** A removal removes exactly that row of that node; a refusal changes nothing. */
  lemma DeleteNodeModelExact(db: Db, node: Id, row: Id, answer: Removal, t: Db)
    requires (answer, t) == DeleteNodeModel(db, node, row)
    ensures answer == NotFound <==> row !in db.models || db.models[row].node != node
    ensures answer == Removed ==>
            t == db.(models := t.models) && t.models.Keys == db.models.Keys - {row}
            && forall r :: r in t.models ==> t.models[r] == db.models[r]
    ensures answer != Removed ==> t == db
  {
    hide HasOther;
  }

  /** The last model of a node cannot be removed, so every node keeps one; and that is the only
      row of the node a removal refuses. */
  lemma DeleteNodeModelKeeps(db: Db, node: Id, row: Id)
    requires Integrity(db)
    ensures Integrity(DeleteNodeModel(db, node, row).1)
    ensures DeleteNodeModel(db, node, row).0 == LastModel <==>
            row in db.models && forall r :: r in db.models && db.models[r].node == node <==> r == row
  {
    hide KeysSound, ConversationsSound, MessagesSound, RequestsSound, TokensSound;
    hide KeysTargeted, ConversationsTargeted, OriginsUnique, Serves;
    var (answer, t) := DeleteNodeModel(db, node, row);
    if answer == Removed {
      DeleteNodeModelServes(db.nodes.Keys, db.models, node, row);
      SetModels(db, t.models);
    }
  }

  lemma DeleteNodeModelServes(nodes: set<Id>, models: map<Id, ModelRow>, node: Id, row: Id)
    requires Served(nodes, models) && row in models && models[row].node == node && HasOther(models, node, row)
    ensures Served(nodes, models - {row})
  {
    forall n | n in nodes ensures Serves(models - {row}, n) {
      assert Serves(models, n);
      var r :| r in models && models[r].node == n && r != row;
      assert (models - {row})[r].node == n;
    }
  }

  // ---- keys, conversations, messages, requests --------------------------------------------------

  lemma CreateApiKeyKeeps(db: Db, id: Id, digest: string, node: Id)
    requires Integrity(db) && CreateApiKey(db, id, digest, node).Some?
    ensures Integrity(CreateApiKey(db, id, digest, node).value)
  {
    hide ModelsSound, Served, ConversationsSound, MessagesSound, TokensSound, ConversationsTargeted, OriginsUnique;
  }

  lemma RevokeApiKeyKeeps(db: Db, id: Id)
    requires Integrity(db)
    ensures Integrity(RevokeApiKey(db, id))
  {
    hide ModelsSound, Served, ConversationsSound, MessagesSound, TokensSound, ConversationsTargeted, OriginsUnique;
    hide RequestsSound, Refers;
    assert RevokeApiKey(db, id).keys.Keys == db.keys.Keys;
  }

  /** Creating a conversation and retargeting one. */
  lemma SetConversationKeeps(db: Db, id: Id, node: Id, modelId: string)
    requires Integrity(db) && node in db.nodes
    ensures Integrity(db.(conversations := db.conversations[id := Conversation(Some(node), Some(modelId))]))
  {
    hide ModelsSound, Served, KeysSound, TokensSound, RequestsSound, KeysTargeted, OriginsUnique;
  }

  lemma MessagesKeep(db: Db, id: Id, conversation: Id, role: Role, content: string)
    requires Integrity(db)
    ensures AddMessage(db, id, conversation, role, content).Some? ==>
            Integrity(AddMessage(db, id, conversation, role, content).value)
    ensures Integrity(UpdateMessageContent(db, id, content))
  {
    hide ModelsSound, Served, KeysSound, TokensSound, RequestsSound, KeysTargeted, OriginsUnique;
    hide ConversationsSound, ConversationsTargeted;
  }

  lemma DeleteConversationKeeps(db: Db, id: Id)
    requires Integrity(db)
    ensures Integrity(DeleteConversation(db, id))
  {
    hide ModelsSound, Served, KeysSound, TokensSound, RequestsSound, KeysTargeted, OriginsUnique;
  }

  lemma RecordRequestKeeps(db: Db, id: Id, key: Option<Id>, node: Option<Id>)
    requires Integrity(db) && RecordRequest(db, id, key, node).Some?
    ensures Integrity(RecordRequest(db, id, key, node).value)
  {
    hide ModelsSound, Served, KeysSound, TokensSound, KeysTargeted, OriginsUnique;
    hide ConversationsSound, ConversationsTargeted, MessagesSound, Refers;
  }

  // ---- tokens -----------------------------------------------------------------------------------

  lemma SetTokens(db: Db, tokens: map<Id, Token>)
    requires Integrity(db) && TokensSound(db.nodes.Keys, tokens)
    ensures Integrity(db.(tokens := tokens))
  {
    hide ModelsSound, Served, KeysSound, ConversationsSound, MessagesSound, RequestsSound, TokensSound;
    hide KeysTargeted, ConversationsTargeted, OriginsUnique;
  }

  lemma CreateTokenKeeps(db: Db, id: Id, digest: string, expiresAt: int)
    requires Integrity(db) && CreateToken(db, id, digest, expiresAt).Some?
    ensures Integrity(CreateToken(db, id, digest, expiresAt).value)
  {
    hide Integrity;
    SoundTokens(db);
    SetTokens(db, CreateToken(db, id, digest, expiresAt).value.tokens);
  }

  lemma SoundTokens(db: Db)
    requires Integrity(db)
    ensures TokensSound(db.nodes.Keys, db.tokens)
  {
    hide ModelsSound, Served, KeysSound, ConversationsSound, MessagesSound, RequestsSound, TokensSound;
    hide KeysTargeted, ConversationsTargeted, OriginsUnique;
  }

  lemma FewerTokens(db: Db, fewer: map<Id, Token>)
    requires Integrity(db)
    requires forall t :: t in fewer ==> t in db.tokens && fewer[t] == db.tokens[t]
    ensures Integrity(db.(tokens := fewer))
  {
    hide Integrity, Refers;
    SoundTokens(db);
    SetTokens(db, fewer);
  }

  lemma TokenDeletionsKeep(db: Db, id: Id, now: int)
    requires Integrity(db)
    ensures Integrity(DeleteToken(db, id)) && Integrity(PruneTokens(db, now))
  {
    hide Integrity, Stale;
    FewerTokens(db, DeleteToken(db, id).tokens);
    FewerTokens(db, PruneTokens(db, now).tokens);
  }

  lemma ConsumeTokenKeeps(db: Db, digest: string, node: Id, now: int)
    requires Integrity(db)
    ensures Integrity(ConsumeToken(db, digest, node, now).1)
  {
    hide ModelsSound, Served, KeysSound, ConversationsSound, MessagesSound, RequestsSound;
    hide KeysTargeted, ConversationsTargeted, OriginsUnique;
  }

  // ---- deleting a node --------------------------------------------------------------------------

  lemma SetRequests(db: Db, requests: map<Id, RequestRow>)
    requires Integrity(db) && RequestsSound(db.nodes.Keys, db.keys.Keys, requests)
    ensures Integrity(db.(requests := requests))
  {
    hide ModelsSound, Served, KeysSound, ConversationsSound, MessagesSound, RequestsSound, TokensSound;
    hide KeysTargeted, ConversationsTargeted, OriginsUnique;
  }

  lemma SoundRequests(db: Db)
    requires Integrity(db)
    ensures RequestsSound(db.nodes.Keys, db.keys.Keys, db.requests)
  {
    hide ModelsSound, Served, KeysSound, ConversationsSound, MessagesSound, RequestsSound, TokensSound;
    hide KeysTargeted, ConversationsTargeted, OriginsUnique;
  }

  lemma DeleteRequestsOfKeeps(db: Db, id: Id)
    requires Integrity(db)
    ensures Integrity(DeleteRequestsOf(db, id))
  {
    hide Integrity, Refers;
    assert RequestsSound(db.nodes.Keys, db.keys.Keys, db.requests) by { SoundRequests(db); }
    SetRequests(db, DeleteRequestsOf(db, id).requests);
  }

  lemma ForgottenKeys(nodes: set<Id>, keys: set<Id>, kept: set<Id>, requests: map<Id, RequestRow>)
    requires RequestsSound(nodes, keys, requests)
    ensures RequestsSound(nodes, kept, ForgetKeys(requests, kept))
  {
  }

  lemma DeleteKeysOfKeeps(db: Db, id: Id)
    requires Integrity(db)
    ensures Integrity(DeleteKeysOf(db, id)) && !HasKeys(DeleteKeysOf(db, id).keys, id)
  {
    hide ModelsSound, Served, ConversationsSound, MessagesSound, RequestsSound, TokensSound;
    hide ConversationsTargeted, OriginsUnique, Refers, ForgetKeys;
    var kept := DeleteKeysOf(db, id).keys;
    ForgottenKeys(db.nodes.Keys, db.keys.Keys, kept.Keys, db.requests);
  }

  lemma DeleteConversationsOfKeeps(db: Db, id: Id)
    requires Integrity(db)
    ensures Integrity(DeleteConversationsOf(db, id))
    ensures !HasConversations(DeleteConversationsOf(db, id).conversations, id)
  {
    hide ModelsSound, Served, KeysSound, RequestsSound, TokensSound, KeysTargeted, OriginsUnique, Refers;
  }

  lemma WithoutModels(nodes: set<Id>, models: map<Id, ModelRow>, id: Id)
    requires ModelsSound(nodes, models) && Served(nodes, models)
    ensures ModelsSound(nodes - {id}, ModelsWithout(models, id)) && Served(nodes - {id}, ModelsWithout(models, id))
  {
    forall n | n in nodes - {id} ensures Serves(ModelsWithout(models, id), n) {
      assert Serves(models, n);
      var r :| r in models && models[r].node == n;
      assert ModelsWithout(models, id)[r].node == n;
    }
  }

  lemma WithoutRequests(nodes: set<Id>, keys: set<Id>, requests: map<Id, RequestRow>, id: Id)
    requires RequestsSound(nodes, keys, requests)
    ensures RequestsSound(nodes - {id}, keys, RequestsWithout(requests, id))
  {
  }

  lemma WithoutTokens(nodes: set<Id>, tokens: map<Id, Token>, id: Id)
    requires TokensSound(nodes, tokens)
    ensures TokensSound(nodes - {id}, TokensWithout(tokens, id))
  {
  }

  lemma WithoutReferrers(db: Db, id: Id)
    requires KeysSound(db.nodes.Keys, db.keys) && ConversationsSound(db.nodes.Keys, db.conversations)
    requires !HasKeys(db.keys, id) && !HasConversations(db.conversations, id)
    ensures KeysSound(db.nodes.Keys - {id}, db.keys) && ConversationsSound(db.nodes.Keys - {id}, db.conversations)
  {
  }

  lemma DeleteNodeRowKeeps(db: Db, id: Id)
    requires Integrity(db) && !HasKeys(db.keys, id) && !HasConversations(db.conversations, id)
    ensures DeleteNodeRow(db, id).Some? && Integrity(DeleteNodeRow(db, id).value)
  {
    hide ModelsSound, Served, KeysSound, ConversationsSound, MessagesSound, RequestsSound, TokensSound;
    hide KeysTargeted, ConversationsTargeted, ModelsWithout, RequestsWithout, TokensWithout, HasKeys, HasConversations;
    if id in db.nodes {
      WithoutModels(db.nodes.Keys, db.models, id);
      WithoutRequests(db.nodes.Keys, db.keys.Keys, db.requests, id);
      WithoutTokens(db.nodes.Keys, db.tokens, id);
      WithoutReferrers(db, id);
      assert (db.nodes - {id}).Keys == db.nodes.Keys - {id};
    }
  }

  lemma PurgeKeeps(db: Db, id: Id)
    requires Integrity(db)
    ensures Purge(db, id).Some? && Integrity(Purge(db, id).value)
  {
    hide Integrity, DeleteNodeRow, DeleteRequestsOf, DeleteKeysOf, HasKeys, HasConversations;
    DeleteRequestsOfKeeps(db, id);
    var a := DeleteRequestsOf(db, id);
    DeleteKeysOfKeeps(a, id);
    var b := DeleteKeysOf(a, id);
    DeleteConversationsOfKeeps(b, id);
    DeleteNodeRowKeeps(DeleteConversationsOf(b, id), id);
  }

  /** Deleting a node never fails on a reference, with or without purging, so the transaction is
      never rolled back; without purging a node in use stays and nothing changes. */
  lemma DeleteNodeKeeps(db: Db, id: Id, purge: bool)
    requires Integrity(db)
    ensures DeleteNode(db, id, purge).Some? && Integrity(DeleteNode(db, id, purge).value)
    ensures id in db.nodes ==> (id in DeleteNode(db, id, purge).value.nodes <==> !purge && InUse(db, id))
    ensures !purge && InUse(db, id) ==> DeleteNode(db, id, purge).value == db
  {
    hide Integrity, ModelsWithout, RequestsWithout, TokensWithout, HasKeys, HasConversations, HasRequests, ForgetKeys;
    if purge {
      PurgeKeeps(db, id);
    } else if !InUse(db, id) {
      DeleteNodeRowKeeps(db, id);
    }
  }

  /** What a purge of node `id` leaves of the tables that belong to nodes. */
  predicate NodesPurged(db: Db, t: Db, id: Id) {
    t.nodes == db.nodes - {id}
    && t.models == (map r | r in db.models && db.models[r].node != id :: db.models[r])
    && t.tokens == map k | k in db.tokens ::
         if db.tokens[k].node == Some(id) then db.tokens[k].(node := None) else db.tokens[k]
  }

  /** The keys and conversations of other nodes stay as they are, with their messages. */
  predicate OwnersPurged(db: Db, t: Db, id: Id)
    requires MessagesSound(db.conversations.Keys, db.messages)
  {
    t.keys == (map k | k in db.keys && db.keys[k].node != Some(id) :: db.keys[k])
    && t.conversations == (map c | c in db.conversations && db.conversations[c].node != Some(id) :: db.conversations[c])
    && t.messages == map m | m in db.messages && db.conversations[db.messages[m].conversation].node != Some(id) :: db.messages[m]
  }

  /** The requests of other nodes stay; those made with a key of this node lose the reference. */
  predicate RequestsPurged(db: Db, t: Db, id: Id)
    requires RequestsSound(db.nodes.Keys, db.keys.Keys, db.requests)
  {
    t.requests == map q | q in db.requests && db.requests[q].node != Some(id) ::
      if db.requests[q].key.Some? && db.keys[db.requests[q].key.value].node == Some(id)
      then db.requests[q].(key := None) else db.requests[q]
  }

  /** Purging removes the node with exactly its models, keys, conversations, messages and requests;
      everything else keeps its content, but for the references to what went. */
  lemma PurgeExact(db: Db, id: Id)
    requires Integrity(db) && id in db.nodes
    ensures Purge(db, id).Some?
    ensures NodesPurged(db, Purge(db, id).value, id)
    ensures OwnersPurged(db, Purge(db, id).value, id)
    ensures RequestsPurged(db, Purge(db, id).value, id)
  {
    PurgeKeeps(db, id);
    PurgedTables(db, id);
    var t := Purge(db, id).value;
    PurgedOwners(db, t, id);
    PurgedRequests(db, t, id);
  }

  lemma PurgedTables(db: Db, id: Id)
    requires id in db.nodes && Purge(db, id).Some?
    ensures var t := Purge(db, id).value; var a := DeleteRequestsOf(db, id); var b := DeleteKeysOf(a, id);
            var c := DeleteConversationsOf(b, id);
            NodesPurged(db, t, id) && t.keys == b.keys && t.conversations == c.conversations && t.messages == c.messages
            && t.requests == RequestsWithout(ForgetKeys(a.requests, b.keys.Keys), id)
  {
    hide HasKeys, HasConversations, RequestsWithout, ForgetKeys;
  }

  lemma PurgedOwners(db: Db, t: Db, id: Id)
    requires MessagesSound(db.conversations.Keys, db.messages)
    requires t.keys == DeleteKeysOf(db, id).keys
    requires t.conversations == DeleteConversationsOf(db, id).conversations
    requires t.messages == DeleteConversationsOf(db, id).messages
    ensures OwnersPurged(db, t, id)
  {
    hide ForgetKeys;
  }

  lemma PurgedRequests(db: Db, t: Db, id: Id)
    requires RequestsSound(db.nodes.Keys, db.keys.Keys, db.requests)
    requires t.requests == RequestsWithout(ForgetKeys(DeleteRequestsOf(db, id).requests, DeleteKeysOf(db, id).keys.Keys), id)
    ensures RequestsPurged(db, t, id)
  {
    var kept := DeleteKeysOf(db, id).keys;
    forall q | q in db.requests
      ensures Refers(db.requests[q].key, kept.Keys) <==>
              !(db.requests[q].key.Some? && db.keys[db.requests[q].key.value].node == Some(id)) {
    }
  }

  // ---- opening a database ---------------------------------------------------------------------

  /** Every node's primary model has a row of its own. */
  predicate PrimaryServed(nodes: map<Id, Node>, models: map<Id, ModelRow>) {
    forall n :: n in nodes ==> ModelTaken(models, n, nodes[n].modelId)
  }

  lemma BackfillServes(nodes: map<Id, Node>, models: map<Id, ModelRow>, owner: map<Id, Id>)
    requires RowsFor(nodes.Keys, models, owner)
    ensures PrimaryServed(nodes, models + Backfill(nodes, models, owner))
  {
    var added := Backfill(nodes, models, owner);
    forall n | n in nodes ensures ModelTaken(models + added, n, nodes[n].modelId) {
      if ModelTaken(models, n, nodes[n].modelId) {
        var r :| r in models && models[r].node == n && models[r].modelId == nodes[n].modelId;
        assert (models + added)[r] == models[r];
      } else {
        var r :| r in owner && owner[r] == n;
        assert (models + added)[r] == ModelRow(n, nodes[n].modelId, true);
      }
    }
  }

  lemma PrimaryServes(nodes: map<Id, Node>, models: map<Id, ModelRow>)
    requires PrimaryServed(nodes, models)
    ensures Served(nodes.Keys, models)
  {
    forall n | n in nodes.Keys ensures Serves(models, n) {
      assert ModelTaken(models, n, nodes[n].modelId);
    }
  }

  lemma AddedIsNew(nodes: map<Id, Node>, models: map<Id, ModelRow>, owner: map<Id, Id>, r: Id, q: Id)
    requires r in Backfill(nodes, models, owner) && q in models
    ensures models[q].node != owner[r] || models[q].modelId != Backfill(nodes, models, owner)[r].modelId
  {
    if models[q].node == owner[r] {
      assert !ModelTaken(models, owner[r], nodes[owner[r]].modelId);
    }
  }

  /** No row is inserted twice. */
  lemma BackfillSound(nodes: map<Id, Node>, models: map<Id, ModelRow>, owner: map<Id, Id>)
    requires RowsFor(nodes.Keys, models, owner) && ModelsSound(nodes.Keys, models)
    ensures ModelsSound(nodes.Keys, models + Backfill(nodes, models, owner))
  {
    hide ModelTaken;
    var added := Backfill(nodes, models, owner);
    forall r, q | r in added && q in models
      ensures added[r].node != models[q].node || added[r].modelId != models[q].modelId {
      AddedIsNew(nodes, models, owner, r, q);
    }
  }

  lemma TargetedRows(db: Db, nodes: set<Id>, id: Id, modelId: string)
    requires id in nodes && KeysSound(nodes, db.keys) && ConversationsSound(nodes, db.conversations)
    requires RequestsSound(nodes, db.keys.Keys, db.requests)
    ensures KeysSound(nodes, TargetKeys(db.keys, id)) && KeysTargeted(TargetKeys(db.keys, id))
    ensures ConversationsSound(nodes, TargetConversations(db.conversations, id, modelId))
    ensures ConversationsTargeted(TargetConversations(db.conversations, id, modelId))
    ensures RequestsSound(nodes, db.keys.Keys, TargetRequests(db.requests, id))
  {
  }

  /** The backfill gives legacy rows the default node, and conversations the default model, and leaves
      every other row as it is. */
  lemma TargetedExact(db: Db, id: Id, modelId: string, k: Id)
    ensures k in TargetKeys(db.keys, id) <==> k in db.keys
    ensures k in TargetConversations(db.conversations, id, modelId) <==> k in db.conversations
    ensures k in TargetRequests(db.requests, id) <==> k in db.requests
    ensures k in db.keys && db.keys[k].node.Some? ==> TargetKeys(db.keys, id)[k] == db.keys[k]
    ensures k in db.keys && db.keys[k].node.None? ==> TargetKeys(db.keys, id)[k] == db.keys[k].(node := Some(id))
    ensures k in db.requests && db.requests[k].node.Some? ==> TargetRequests(db.requests, id)[k] == db.requests[k]
    ensures k in db.requests && db.requests[k].node.None? ==> TargetRequests(db.requests, id)[k] == db.requests[k].(node := Some(id))
    ensures k in db.conversations ==>
            var was, now := db.conversations[k], TargetConversations(db.conversations, id, modelId)[k];
            now.node == Given(was.node, id) && now.modelId == if was.node.Some? then Given(was.modelId, modelId) else Some(modelId)
  {
  }

  function Given<T>(a: Option<T>, b: T): Option<T> {
    if a.Some? then a else Some(b)
  }

  lemma UpsertUnique(nodes: map<Id, Node>, id: Id, origin: string, modelId: string)
    requires OriginsUnique(nodes) && !OriginTaken(nodes, id, origin)
    ensures OriginsUnique(Upsert(nodes, id, origin, modelId))
  {
  }

  /** Opening any database that obeys the constraints establishes the integrity and registers every
      node's primary model; it fails exactly when another node has the configured origin. */
  lemma OpenEstablishes(db: Db, id: Id, origin: string, modelId: string, owner: map<Id, Id>)
    requires Schema(db) && RowsFor(db.nodes.Keys + {id}, db.models, owner)
    ensures Open(db, id, origin, modelId, owner).None? <==> OriginTaken(db.nodes, id, origin)
    ensures Open(db, id, origin, modelId, owner).Some? ==>
            var t := Open(db, id, origin, modelId, owner).value; Integrity(t) && PrimaryServed(t.nodes, t.models)
  {
    hide ModelsSound, Served, KeysSound, ConversationsSound, MessagesSound, RequestsSound, TokensSound, OriginsUnique;
    hide KeysTargeted, ConversationsTargeted, OriginTaken, RowsFor, Upsert, PrimaryServed, Backfill;
    if Open(db, id, origin, modelId, owner).Some? {
      UpsertUnique(db.nodes, id, origin, modelId);
      var nodes := Upsert(db.nodes, id, origin, modelId);
      assert nodes.Keys == db.nodes.Keys + {id} by { UpsertKeys(db.nodes, id, origin, modelId); }
      NodesGrow(db, nodes.Keys);
      TargetedRows(db, nodes.Keys, id, modelId);
      BackfillSound(nodes, db.models, owner);
      BackfillServes(nodes, db.models, owner);
      PrimaryServes(nodes, db.models + Backfill(nodes, db.models, owner));
      assert TargetKeys(db.keys, id).Keys == db.keys.Keys;
      assert TargetConversations(db.conversations, id, modelId).Keys == db.conversations.Keys;
    }
  }

  lemma UpsertKeys(nodes: map<Id, Node>, id: Id, origin: string, modelId: string)
    ensures Upsert(nodes, id, origin, modelId).Keys == nodes.Keys + {id}
  {
  }

  // ---- runs ---------------------------------------------------------------------------------------

  datatype Op =
    | AddNode(id: Id, row: Id, node: Node)
    | Secret(id: Id, secret: string)
    | EnableNode(id: Id, enabled: bool)
    | AddModel(id: Id, row: Id, modelId: string)
    | EnableModel(id: Id, row: Id, enabled: bool)
    | DropModel(id: Id, row: Id)
    | DropNode(id: Id, purge: bool)
    | AddKey(id: Id, digest: string, owner: Id)
    | RevokeKey(id: Id)
    | AddConversation(id: Id, owner: Id, modelId: string)
    | Retarget(id: Id, owner: Id, modelId: string)
    | DropConversation(id: Id)
    | Say(id: Id, conversation: Id, role: Role, content: string)
    | Rewrite(id: Id, content: string)
    | Log(id: Id, key: Option<Id>, served: Option<Id>)
    | AddToken(id: Id, digest: string, expiresAt: int)
    | DropToken(id: Id)
    | Prune(now: int)
    | Consume(digest: string, claimant: Id, now: int)

  function Or(answer: Option<Db>, db: Db): Db {
    if answer.Some? then answer.value else db
  }

  /** A failed operation changes nothing. */
  function Apply(db: Db, op: Op): Db {
    match op
    case AddNode(id, row, node) => Or(CreateNode(db, id, row, node), db)
    case Secret(id, secret) => SetNodeSecret(db, id, secret)
    case EnableNode(id, enabled) => SetNodeEnabled(db, id, enabled)
    case AddModel(id, row, modelId) => Or(AddNodeModel(db, id, row, modelId), db)
    case EnableModel(id, row, enabled) => SetNodeModelEnabled(db, id, row, enabled)
    case DropModel(id, row) => DeleteNodeModel(db, id, row).1
    case DropNode(id, purge) => Or(DeleteNode(db, id, purge), db)
    case AddKey(id, digest, owner) => Or(CreateApiKey(db, id, digest, owner), db)
    case RevokeKey(id) => RevokeApiKey(db, id)
    case AddConversation(id, owner, modelId) => Or(CreateConversation(db, id, owner, modelId), db)
    case Retarget(id, owner, modelId) => Or(UpdateConversationTarget(db, id, owner, modelId), db)
    case DropConversation(id) => DeleteConversation(db, id)
    case Say(id, conversation, role, content) => Or(AddMessage(db, id, conversation, role, content), db)
    case Rewrite(id, content) => UpdateMessageContent(db, id, content)
    case Log(id, key, served) => Or(RecordRequest(db, id, key, served), db)
    case AddToken(id, digest, expiresAt) => Or(CreateToken(db, id, digest, expiresAt), db)
    case DropToken(id) => DeleteToken(db, id)
    case Prune(now) => PruneTokens(db, now)
    case Consume(digest, claimant, now) => ConsumeToken(db, digest, claimant, now).1
  }

  function Run(db: Db, ops: seq<Op>): Db {
    if ops == [] then db else Apply(Run(db, ops[..|ops| - 1]), ops[|ops| - 1])
  }

  /** The random identifier of a new node's model row is new. */
  predicate Unseen(db: Db, op: Op) {
    op.AddNode? ==> op.row !in db.models
  }

  predicate AllUnseen(db: Db, ops: seq<Op>) {
    forall i :: 0 <= i < |ops| ==> Unseen(Run(db, ops[..i]), ops[i])
  }

  lemma ApplyKeeps(db: Db, op: Op)
    requires Integrity(db) && Unseen(db, op)
    ensures Integrity(Apply(db, op))
  {
    hide Integrity, ModelsWithout, RequestsWithout, TokensWithout, ForgetKeys, OriginUsed, ModelTaken, DigestUsed;
    hide TokenDigestUsed, HasKeys, HasConversations, HasRequests, DeleteNode, DeleteNodeModel, ConsumeToken, PruneTokens;
    hide DeleteToken, DeleteConversation, RecordRequest, CreateToken, CreateApiKey, AddMessage, AddNodeModel, RevokeApiKey;
    match op {
      case AddNode(id, row, node) => if CreateNode(db, id, row, node).Some? { CreateNodeKeeps(db, id, row, node); }
      case Secret(id, secret) => if id in db.nodes { SetNodeKeeps(db, id, db.nodes[id].(secret := Some(secret))); }
      case EnableNode(id, enabled) => if id in db.nodes { SetNodeKeeps(db, id, db.nodes[id].(enabled := enabled)); }
      case AddModel(id, row, modelId) =>
        if AddNodeModel(db, id, row, modelId).Some? { AddNodeModelKeeps(db, id, row, modelId); }
      case EnableModel(id, row, enabled) => SetNodeModelEnabledKeeps(db, id, row, enabled);
      case DropModel(id, row) => DeleteNodeModelKeeps(db, id, row);
      case DropNode(id, purge) => DeleteNodeKeeps(db, id, purge);
      case AddKey(id, digest, owner) =>
        if CreateApiKey(db, id, digest, owner).Some? { CreateApiKeyKeeps(db, id, digest, owner); }
      case RevokeKey(id) => RevokeApiKeyKeeps(db, id);
      case AddConversation(id, owner, modelId) =>
        if owner in db.nodes { SetConversationKeeps(db, id, owner, modelId); }
      case Retarget(id, owner, modelId) => if owner in db.nodes { SetConversationKeeps(db, id, owner, modelId); }
      case DropConversation(id) => DeleteConversationKeeps(db, id);
      case Say(id, conversation, role, content) => MessagesKeep(db, id, conversation, role, content);
      case Rewrite(id, content) => MessagesKeep(db, id, "", System, content);
      case Log(id, key, served) => if RecordRequest(db, id, key, served).Some? { RecordRequestKeeps(db, id, key, served); }
      case AddToken(id, digest, expiresAt) =>
        if CreateToken(db, id, digest, expiresAt).Some? { CreateTokenKeeps(db, id, digest, expiresAt); }
      case DropToken(id) => TokenDeletionsKeep(db, id, 0);
      case Prune(now) => TokenDeletionsKeep(db, "", now);
      case Consume(digest, claimant, now) => ConsumeTokenKeeps(db, digest, claimant, now);
    }
  }

  /** From any database file that obeys the constraints, opened and then changed by any operations
      in any order, failed ones included: references resolve, no model is registered twice on a
      node, every node serves a model, every key and conversation has its target. */
  lemma {:induction false} IntegrityAlways(file: Db, id: Id, origin: string, modelId: string, owner: map<Id, Id>, ops: seq<Op>)
    requires Schema(file) && RowsFor(file.nodes.Keys + {id}, file.models, owner)
    requires Open(file, id, origin, modelId, owner).Some?
    requires AllUnseen(Open(file, id, origin, modelId, owner).value, ops)
    ensures Integrity(Run(Open(file, id, origin, modelId, owner).value, ops))
  {
    hide Integrity, Schema, RowsFor, Apply, Open, Unseen;
    var db := Open(file, id, origin, modelId, owner).value;
    OpenEstablishes(file, id, origin, modelId, owner);
    if ops != [] {
      var before := ops[..|ops| - 1];
      forall i | 0 <= i < |before| ensures Unseen(Run(db, before[..i]), before[i]) {
        assert before[..i] == ops[..i];
      }
      IntegrityAlways(file, id, origin, modelId, owner, before);
      ApplyKeeps(Run(db, before), ops[|ops| - 1]);
    }
  }
}
