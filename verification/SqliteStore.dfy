/** The store as the object `createStore` returns: each method runs the source's statements, one
    table at a time, and is proved equal to the operation it stands for. */
module SqliteStore {
  import opened Text
  import S = Store
  import Laws = StoreLaws

  type Id = S.Id

  class Store {
    var nodes: map<Id, S.Node>
    var models: map<Id, S.ModelRow>
    var keys: map<Id, S.ApiKey>
    var conversations: map<Id, S.Conversation>
    var messages: map<Id, S.Message>
    var requests: map<Id, S.RequestRow>
    var tokens: map<Id, S.Token>

    ghost function View(): S.Db
      reads this
    {
      S.Db(nodes, models, keys, conversations, messages, requests, tokens)
    }

    /** The tables of the database file. */
    constructor (file: S.Db)
      ensures View() == file
    {
      nodes, models, keys := file.nodes, file.models, file.keys;
      conversations, messages := file.conversations, file.messages;
      requests, tokens := file.requests, file.tokens;
    }

    method UpsertNode(id: Id, origin: string, modelId: string) returns (failed: bool)
      modifies this`nodes
      ensures failed <==> S.OriginTaken(old(nodes), id, origin)
      ensures nodes == if failed then old(nodes) else S.Upsert(old(nodes), id, origin, modelId)
      ensures !failed ==> id in nodes && nodes[id].origin == origin && nodes[id].modelId == modelId && nodes - {id} == old(nodes) - {id}
      ensures !failed && id in old(nodes) ==> nodes[id].enabled == old(nodes)[id].enabled && nodes[id].secret == old(nodes)[id].secret
    {
      failed := S.OriginTaken(nodes, id, origin);
      if failed {
        return;
      }
      if id in nodes {
        nodes := nodes[id := nodes[id].(origin := origin, modelId := modelId)];
      } else {
        nodes := nodes[id := S.Node(origin, modelId, true, None)];
      }
    }

    /** Four UPDATE statements. */
    method TargetRows(id: Id, modelId: string)
      modifies this`keys, this`conversations, this`requests
      ensures keys == S.TargetKeys(old(keys), id) && requests == S.TargetRequests(old(requests), id)
      ensures conversations == S.TargetConversations(old(conversations), id, modelId)
    {
      keys := map k | k in keys :: if keys[k].node.None? then keys[k].(node := Some(id)) else keys[k];
      conversations := map c | c in conversations ::
        if conversations[c].node.None? then S.Conversation(Some(id), Some(modelId)) else conversations[c];
      conversations := map c | c in conversations ::
        if conversations[c].modelId.None? then conversations[c].(modelId := Some(modelId)) else conversations[c];
      requests := map q | q in requests :: if requests[q].node.None? then requests[q].(node := Some(id)) else requests[q];
    }

    /** The upsert and the backfills, one statement after the other. */
    method Prepare(id: Id, origin: string, modelId: string, owner: map<Id, Id>) returns (failed: bool)
      requires S.Schema(View()) && S.RowsFor(nodes.Keys + {id}, models, owner)
      modifies this
      ensures failed <==> S.Open(old(View()), id, origin, modelId, owner).None?
      ensures View() == if failed then old(View()) else S.Open(old(View()), id, origin, modelId, owner).value
      ensures !failed ==> S.Integrity(View()) && Laws.PrimaryServed(nodes, models)
    {
      hide S.OriginTaken, S.Integrity, S.Schema, S.RowsFor, Laws.PrimaryServed, S.Backfill;
      hide S.Upsert, S.TargetKeys, S.TargetRequests, S.TargetConversations;
      Laws.OpenEstablishes(View(), id, origin, modelId, owner);
      failed := UpsertNode(id, origin, modelId);
      if !failed {
        TargetRows(id, modelId);
        models := models + S.Backfill(nodes, models, owner);
      }
    }

    /** `row` is a random identifier. Two statements outside a transaction: the second cannot fail,
        as no row refers to a node that was not there. */
    method CreateNode(id: Id, row: Id, node: S.Node) returns (created: bool)
      requires S.Integrity(View()) && row !in models
      modifies this`nodes, this`models
      ensures created <==> S.CreateNode(old(View()), id, row, node).Some?
      ensures View() == if created then S.CreateNode(old(View()), id, row, node).value else old(View())
      ensures S.Integrity(View())
    {
      hide S.Integrity, S.OriginUsed;
      ghost var before := View();
      if id in nodes || S.OriginUsed(nodes, node.origin) {
        return false;
      }
      nodes := nodes[id := node];
      models := models[row := S.ModelRow(id, node.modelId, true)];
      Laws.CreateNodeKeeps(before, id, row, node);
      created := true;
    }

    method SetNodeSecret(id: Id, secret: string) returns (changed: bool)
      modifies this`nodes
      ensures View() == S.SetNodeSecret(old(View()), id, secret) && changed == (id in old(nodes))
    {
      changed := id in nodes;
      if changed {
        nodes := nodes[id := nodes[id].(secret := Some(secret))];
      }
    }

    method DeleteNodeModel(node: Id, row: Id) returns (answer: S.Removal)
      requires S.Integrity(View())
      modifies this`models
      ensures (answer, View()) == S.DeleteNodeModel(old(View()), node, row)
      ensures S.Integrity(View())
    {
      hide S.Integrity, S.HasOther;
      ghost var before := View();
      Laws.DeleteNodeModelKeeps(before, node, row);
      if row !in models || models[row].node != node {
        return S.NotFound;
      }
      var remaining := set r | r in models && models[r].node == node && r != row;
      Remaining(models, node, row, remaining);
      if |remaining| == 0 {
        return S.LastModel;
      }
      models := models - {row};
      answer := S.Removed;
    }

    static lemma Remaining(models: map<Id, S.ModelRow>, node: Id, row: Id, remaining: set<Id>)
      requires remaining == set r | r in models && models[r].node == node && r != row
      ensures |remaining| == 0 <==> !S.HasOther(models, node, row)
    {
      if S.HasOther(models, node, row) {
        var r :| r in models && models[r].node == node && r != row;
        assert r in remaining;
      }
      if remaining != {} {
        var r :| r in remaining;
        assert S.HasOther(models, node, row);
      }
    }

    method DeleteNodeRequests(id: Id)
      modifies this`requests
      ensures View() == S.DeleteRequestsOf(old(View()), id)
    {
      requests := map q | q in requests && requests[q].node != Some(id) :: requests[q];
    }

    method DeleteNodeKeys(id: Id)
      modifies this`keys, this`requests
      ensures View() == S.DeleteKeysOf(old(View()), id)
    {
      keys := map k | k in keys && keys[k].node != Some(id) :: keys[k];
      requests := S.ForgetKeys(requests, keys.Keys);
    }

    method DeleteNodeConversations(id: Id)
      modifies this`conversations, this`messages
      ensures View() == S.DeleteConversationsOf(old(View()), id)
    {
      conversations := map c | c in conversations && conversations[c].node != Some(id) :: conversations[c];
      messages := map m | m in messages && messages[m].conversation in conversations :: messages[m];
    }

    method DeleteNodeStatement(id: Id) returns (failed: bool, deleted: bool)
      modifies this`nodes, this`models, this`requests, this`tokens
      ensures failed <==> S.DeleteNodeRow(old(View()), id).None?
      ensures View() == if failed then old(View()) else S.DeleteNodeRow(old(View()), id).value
      ensures deleted <==> !failed && id in old(nodes)
    {
      hide S.HasKeys, S.HasConversations, S.ModelsWithout, S.RequestsWithout, S.TokensWithout;
      if id !in nodes {
        return false, false;
      }
      if S.HasKeys(keys, id) || S.HasConversations(conversations, id) {
        return true, false;
      }
      nodes := nodes - {id};
      models := S.ModelsWithout(models, id);
      requests := S.RequestsWithout(requests, id);
      tokens := S.TokensWithout(tokens, id);
      failed, deleted := false, true;
    }

    /** Four statements in a transaction, rolled back when one fails. */
    method PurgeNode(id: Id) returns (failed: bool, deleted: bool)
      modifies this
      ensures failed <==> S.Purge(old(View()), id).None?
      ensures View() == if failed then old(View()) else S.Purge(old(View()), id).value
      ensures deleted <==> !failed && id in old(nodes)
    {
      hide S.DeleteNodeRow, S.DeleteRequestsOf, S.DeleteKeysOf, S.DeleteConversationsOf;
      ghost var before := View();
      var saved := (requests, keys, conversations, messages);
      DeleteNodeRequests(id);
      DeleteNodeKeys(id);
      DeleteNodeConversations(id);
      SameNodes(before, id);
      failed, deleted := DeleteNodeStatement(id);
      if failed {
        requests, keys, conversations, messages := saved.0, saved.1, saved.2, saved.3;
      }
    }

    /** A node in use is deleted only with `purge`. In an integral store no deletion fails. */
    method DeleteNode(id: Id, purge: bool) returns (failed: bool, deleted: bool)
      modifies this
      ensures failed <==> S.DeleteNode(old(View()), id, purge).None?
      ensures View() == if failed then old(View()) else S.DeleteNode(old(View()), id, purge).value
      ensures S.Integrity(old(View())) ==> !failed && S.Integrity(View())
      ensures S.Integrity(old(View())) && id in old(nodes) ==> (deleted <==> id !in nodes)
    {
      hide S.Integrity, S.HasKeys, S.HasConversations, S.HasRequests, S.DeleteNodeRow, S.Purge;
      ghost var before := View();
      if S.Integrity(before) { Laws.DeleteNodeKeeps(before, id, purge); }
      if (S.HasKeys(keys, id) || S.HasConversations(conversations, id) || S.HasRequests(requests, id)) && !purge {
        return false, false;
      }
      if !purge {
        failed, deleted := DeleteNodeStatement(id);
      } else {
        failed, deleted := PurgeNode(id);
      }
    }

    static lemma SameNodes(db: S.Db, id: Id)
      ensures var t := S.DeleteConversationsOf(S.DeleteKeysOf(S.DeleteRequestsOf(db, id), id), id);
              t.nodes == db.nodes && t.models == db.models && t.tokens == db.tokens
    {
    }

    method CreateEnrollmentToken(id: Id, digest: string, expiresAt: int) returns (created: bool)
      modifies this`tokens
      ensures created <==> S.CreateToken(old(View()), id, digest, expiresAt).Some?
      ensures View() == if created then S.CreateToken(old(View()), id, digest, expiresAt).value else old(View())
      ensures created ==> tokens == old(tokens)[id := S.Token(digest, expiresAt, None, None)] && id !in old(tokens)
    {
      hide S.TokenDigestUsed;
      if id in tokens || S.TokenDigestUsed(tokens, digest) {
        return false;
      }
      tokens := tokens[id := S.Token(digest, expiresAt, None, None)];
      created := true;
    }

    method DeleteEnrollmentToken(id: Id) returns (deleted: bool)
      modifies this`tokens
      ensures View() == S.DeleteToken(old(View()), id)
      ensures deleted <==> id in old(tokens) && id !in tokens
      ensures tokens == if id in old(tokens) && old(tokens)[id].usedAt.None? then old(tokens) - {id} else old(tokens)
    {
      deleted := id in tokens && tokens[id].usedAt.None?;
      if deleted {
        tokens := tokens - {id};
      }
    }

    method PruneExpiredEnrollmentTokens(now: int)
      modifies this`tokens
      ensures View() == S.PruneTokens(old(View()), now)
      ensures forall t :: t in tokens <==> t in old(tokens) && (old(tokens)[t].usedAt.Some? || old(tokens)[t].expiresAt > now)
      ensures forall t :: t in tokens ==> tokens[t] == old(tokens)[t]
    {
      tokens := map t | t in tokens && !(tokens[t].usedAt.None? && tokens[t].expiresAt <= now) :: tokens[t];
    }

    method ConsumeEnrollmentToken(digest: string, node: Id, now: int) returns (answer: S.Consumption)
      modifies this`tokens
      ensures (answer, View()) == S.ConsumeToken(old(View()), digest, node, now)
      ensures answer != S.Consumed ==> tokens == old(tokens)
      ensures answer == S.Consumed ==> node in nodes && tokens.Keys == old(tokens).Keys
      ensures answer == S.Consumed ==> forall t :: t in tokens ==>
                var was := old(tokens)[t];
                tokens[t] == if was.digest == digest && was.usedAt.None? && was.expiresAt > now
                             then was.(usedAt := Some(now), node := Some(node)) else was
    {
      hide S.AnyConsumable;
      if !S.AnyConsumable(tokens, digest, now) {
        return S.Refused;
      }
      if node !in nodes {
        return S.ForeignKeyError;
      }
      tokens := map t | t in tokens ::
        if S.Consumable(tokens[t], digest, now) then tokens[t].(usedAt := Some(now), node := Some(node)) else tokens[t];
      answer := S.Consumed;
    }
  }
}
