/** The dashboard's store: its tables as maps from primary key to row, with the constraints and
    referential actions the schema declares. A statement that violates a constraint fails and
    changes nothing; a failed operation is `None`. */
module Store {
  import opened Text

  type Id = string

  datatype Role = System | User | Assistant
  datatype Node = Node(origin: string, modelId: string, enabled: bool, secret: Option<string>)
  datatype ModelRow = ModelRow(node: Id, modelId: string, enabled: bool)
  datatype ApiKey = ApiKey(digest: string, node: Option<Id>, revoked: bool)
  datatype Conversation = Conversation(node: Option<Id>, modelId: Option<string>)
  datatype Message = Message(conversation: Id, role: Role, content: string)
  datatype RequestRow = RequestRow(key: Option<Id>, node: Option<Id>)
  datatype Token = Token(digest: string, expiresAt: int, usedAt: Option<int>, node: Option<Id>)

  datatype Db = Db(
    nodes: map<Id, Node>,
    models: map<Id, ModelRow>,
    keys: map<Id, ApiKey>,
    conversations: map<Id, Conversation>,
    messages: map<Id, Message>,
    requests: map<Id, RequestRow>,
    tokens: map<Id, Token>)

  // ---- what the schema and the store promise -------------------------------------------------

  predicate Refers(ref: Option<Id>, ids: set<Id>) {
    ref.Some? ==> ref.value in ids
  }

  predicate OriginsUnique(nodes: map<Id, Node>) {
    forall a, b :: a in nodes && b in nodes && nodes[a].origin == nodes[b].origin ==> a == b
  }

  predicate ModelsSound(nodes: set<Id>, models: map<Id, ModelRow>) {
    (forall r :: r in models ==> models[r].node in nodes)
    && (forall r, q | r in models && q in models ::
          models[r].node == models[q].node && models[r].modelId == models[q].modelId ==> r == q)
  }

  predicate Serves(models: map<Id, ModelRow>, node: Id) {
    exists r :: r in models && models[r].node == node
  }

  /** Every node can serve a model. */
  predicate Served(nodes: set<Id>, models: map<Id, ModelRow>) {
    forall n :: n in nodes ==> Serves(models, n)
  }

  predicate KeysSound(nodes: set<Id>, keys: map<Id, ApiKey>) {
    (forall k :: k in keys ==> Refers(keys[k].node, nodes))
    && (forall a, b :: a in keys && b in keys && keys[a].digest == keys[b].digest ==> a == b)
  }

  predicate ConversationsSound(nodes: set<Id>, conversations: map<Id, Conversation>) {
    forall c :: c in conversations ==> Refers(conversations[c].node, nodes)
  }

  predicate MessagesSound(conversations: set<Id>, messages: map<Id, Message>) {
    forall m :: m in messages ==> messages[m].conversation in conversations
  }

  predicate RequestsSound(nodes: set<Id>, keys: set<Id>, requests: map<Id, RequestRow>) {
    forall q :: q in requests ==> Refers(requests[q].key, keys) && Refers(requests[q].node, nodes)
  }

  predicate TokensSound(nodes: set<Id>, tokens: map<Id, Token>) {
    (forall t :: t in tokens ==> Refers(tokens[t].node, nodes) && (tokens[t].node.Some? ==> tokens[t].usedAt.Some?))
    && (forall a, b :: a in tokens && b in tokens && tokens[a].digest == tokens[b].digest ==> a == b)
  }

  /** What the constraints of the schema guarantee, on any database file. */
  predicate Schema(db: Db) {
    OriginsUnique(db.nodes) && ModelsSound(db.nodes.Keys, db.models) && KeysSound(db.nodes.Keys, db.keys)
    && ConversationsSound(db.nodes.Keys, db.conversations) && MessagesSound(db.conversations.Keys, db.messages)
    && RequestsSound(db.nodes.Keys, db.keys.Keys, db.requests) && TokensSound(db.nodes.Keys, db.tokens)
  }

  predicate KeysTargeted(keys: map<Id, ApiKey>) {
    forall k :: k in keys ==> keys[k].node.Some?
  }

  predicate ConversationsTargeted(conversations: map<Id, Conversation>) {
    forall c :: c in conversations ==> conversations[c].node.Some? && conversations[c].modelId.Some?
  }

  /** The constraints, and what the code adds to them: every node has a model, every key a node,
      every conversation a node and a model. */
  predicate Integrity(db: Db) {
    Schema(db) && Served(db.nodes.Keys, db.models) && KeysTargeted(db.keys) && ConversationsTargeted(db.conversations)
  }

  // ---- nodes and their models -----------------------------------------------------------------

  predicate OriginUsed(nodes: map<Id, Node>, origin: string) {
    exists n :: n in nodes && nodes[n].origin == origin
  }

  /** Two statements: the node, and the row of its primary model. */
  function CreateNode(db: Db, id: Id, row: Id, node: Node): Option<Db> {
    if id in db.nodes || OriginUsed(db.nodes, node.origin) then None
    else Some(db.(nodes := db.nodes[id := node], models := db.models[row := ModelRow(id, node.modelId, true)]))
  }

  function SetNodeSecret(db: Db, id: Id, secret: string): Db {
    if id in db.nodes then db.(nodes := db.nodes[id := db.nodes[id].(secret := Some(secret))]) else db
  }

  function SetNodeEnabled(db: Db, id: Id, enabled: bool): Db {
    if id in db.nodes then db.(nodes := db.nodes[id := db.nodes[id].(enabled := enabled)]) else db
  }

  predicate ModelTaken(models: map<Id, ModelRow>, node: Id, modelId: string) {
    exists r :: r in models && models[r].node == node && models[r].modelId == modelId
  }

  function AddNodeModel(db: Db, node: Id, row: Id, modelId: string): Option<Db> {
    if node !in db.nodes || row in db.models || ModelTaken(db.models, node, modelId) then None
    else Some(db.(models := db.models[row := ModelRow(node, modelId, true)]))
  }

  function SetNodeModelEnabled(db: Db, node: Id, row: Id, enabled: bool): Db {
    if row in db.models && db.models[row].node == node then
      db.(models := db.models[row := db.models[row].(enabled := enabled)])
    else db
  }

  datatype Removal = Removed | NotFound | LastModel

  /** The node has another row. */
  predicate HasOther(models: map<Id, ModelRow>, node: Id, row: Id) {
    exists r :: r in models && models[r].node == node && r != row
  }

  function DeleteNodeModel(db: Db, node: Id, row: Id): (Removal, Db) {
    if row !in db.models || db.models[row].node != node then (NotFound, db)
    else if !HasOther(db.models, node, row) then (LastModel, db)
    else (Removed, db.(models := db.models - {row}))
  }

  // ---- keys, conversations, messages, requests --------------------------------------------------

  predicate DigestUsed(keys: map<Id, ApiKey>, digest: string) {
    exists k :: k in keys && keys[k].digest == digest
  }

  function CreateApiKey(db: Db, id: Id, digest: string, node: Id): Option<Db> {
    if node !in db.nodes || id in db.keys || DigestUsed(db.keys, digest) then None
    else Some(db.(keys := db.keys[id := ApiKey(digest, Some(node), false)]))
  }

  function RevokeApiKey(db: Db, id: Id): Db {
    if id in db.keys then db.(keys := db.keys[id := db.keys[id].(revoked := true)]) else db
  }

  function CreateConversation(db: Db, id: Id, node: Id, modelId: string): Option<Db> {
    if node !in db.nodes || id in db.conversations then None
    else Some(db.(conversations := db.conversations[id := Conversation(Some(node), Some(modelId))]))
  }

  function UpdateConversationTarget(db: Db, id: Id, node: Id, modelId: string): Option<Db> {
    if id !in db.conversations then Some(db)
    else if node !in db.nodes then None
    else Some(db.(conversations := db.conversations[id := Conversation(Some(node), Some(modelId))]))
  }

  function AddMessage(db: Db, id: Id, conversation: Id, role: Role, content: string): Option<Db> {
    if conversation !in db.conversations || id in db.messages then None
    else Some(db.(messages := db.messages[id := Message(conversation, role, content)]))
  }

  function UpdateMessageContent(db: Db, id: Id, content: string): Db {
    if id in db.messages then db.(messages := db.messages[id := db.messages[id].(content := content)]) else db
  }

  /** Messages go with their conversation. */
  function DeleteConversation(db: Db, id: Id): Db {
    db.(conversations := db.conversations - {id},
        messages := map m | m in db.messages && db.messages[m].conversation != id :: db.messages[m])
  }

  function RecordRequest(db: Db, id: Id, key: Option<Id>, node: Option<Id>): Option<Db> {
    if id in db.requests || !Refers(key, db.keys.Keys) || !Refers(node, db.nodes.Keys) then None
    else Some(db.(requests := db.requests[id := RequestRow(key, node)]))
  }

  // ---- enrolment tokens -----------------------------------------------------------------------

  predicate TokenDigestUsed(tokens: map<Id, Token>, digest: string) {
    exists t :: t in tokens && tokens[t].digest == digest
  }

  function CreateToken(db: Db, id: Id, digest: string, expiresAt: int): Option<Db> {
    if id in db.tokens || TokenDigestUsed(db.tokens, digest) then None
    else Some(db.(tokens := db.tokens[id := Token(digest, expiresAt, None, None)]))
  }

  /** A token that has been used stays. */
  function DeleteToken(db: Db, id: Id): Db {
    if id in db.tokens && db.tokens[id].usedAt.None? then db.(tokens := db.tokens - {id}) else db
  }

  predicate Stale(token: Token, now: int) {
    token.usedAt.None? && token.expiresAt <= now
  }

  function PruneTokens(db: Db, now: int): Db {
    db.(tokens := map t | t in db.tokens && !Stale(db.tokens[t], now) :: db.tokens[t])
  }

  predicate Consumable(token: Token, digest: string, now: int) {
    token.digest == digest && token.usedAt.None? && token.expiresAt > now
  }

  predicate AnyConsumable(tokens: map<Id, Token>, digest: string, now: int) {
    exists t :: t in tokens && Consumable(tokens[t], digest, now)
  }

  datatype Consumption = Consumed | Refused | ForeignKeyError

  /** One guarded UPDATE over the rows it matches. It fails when it would set a reference to a node
      that is gone. */
  function ConsumeToken(db: Db, digest: string, node: Id, now: int): (Consumption, Db) {
    if !AnyConsumable(db.tokens, digest, now) then (Refused, db)
    else if node !in db.nodes then (ForeignKeyError, db)
    else (Consumed, db.(tokens := map t | t in db.tokens ::
            if Consumable(db.tokens[t], digest, now) then db.tokens[t].(usedAt := Some(now), node := Some(node))
            else db.tokens[t]))
  }

  // ---- deleting a node --------------------------------------------------------------------------

  predicate HasKeys(keys: map<Id, ApiKey>, id: Id) {
    exists k :: k in keys && keys[k].node == Some(id)
  }

  predicate HasConversations(conversations: map<Id, Conversation>, id: Id) {
    exists c :: c in conversations && conversations[c].node == Some(id)
  }

  predicate HasRequests(requests: map<Id, RequestRow>, id: Id) {
    exists q :: q in requests && requests[q].node == Some(id)
  }

  predicate InUse(db: Db, id: Id) {
    HasKeys(db.keys, id) || HasConversations(db.conversations, id) || HasRequests(db.requests, id)
  }

  function DeleteRequestsOf(db: Db, id: Id): Db {
    db.(requests := map q | q in db.requests && db.requests[q].node != Some(id) :: db.requests[q])
  }

  function ForgetKeys(requests: map<Id, RequestRow>, keys: set<Id>): map<Id, RequestRow> {
    map q | q in requests :: if Refers(requests[q].key, keys) then requests[q] else requests[q].(key := None)
  }

  /** Requests made with a deleted key keep their row and lose the reference. */
  function DeleteKeysOf(db: Db, id: Id): Db {
    var kept := map k | k in db.keys && db.keys[k].node != Some(id) :: db.keys[k];
    db.(keys := kept, requests := ForgetKeys(db.requests, kept.Keys))
  }

  function DeleteConversationsOf(db: Db, id: Id): Db {
    var kept := map c | c in db.conversations && db.conversations[c].node != Some(id) :: db.conversations[c];
    db.(conversations := kept,
        messages := map m | m in db.messages && db.messages[m].conversation in kept :: db.messages[m])
  }

  function ModelsWithout(models: map<Id, ModelRow>, id: Id): map<Id, ModelRow> {
    map r | r in models && models[r].node != id :: models[r]
  }

  function RequestsWithout(requests: map<Id, RequestRow>, id: Id): map<Id, RequestRow> {
    map q | q in requests :: if requests[q].node == Some(id) then requests[q].(node := None) else requests[q]
  }

  function TokensWithout(tokens: map<Id, Token>, id: Id): map<Id, Token> {
    map t | t in tokens :: if tokens[t].node == Some(id) then tokens[t].(node := None) else tokens[t]
  }

  /** The row of the node itself: refused while a key or a conversation refers to it; its models
      go with it, and requests and tokens lose the reference. */
  function DeleteNodeRow(db: Db, id: Id): Option<Db> {
    if id !in db.nodes then Some(db)
    else if HasKeys(db.keys, id) || HasConversations(db.conversations, id) then None
    else Some(db.(nodes := db.nodes - {id}, models := ModelsWithout(db.models, id),
                  requests := RequestsWithout(db.requests, id), tokens := TokensWithout(db.tokens, id)))
  }

  /** The four statements of the transaction. */
  function Purge(db: Db, id: Id): Option<Db> {
    DeleteNodeRow(DeleteConversationsOf(DeleteKeysOf(DeleteRequestsOf(db, id), id), id), id)
  }

  function DeleteNode(db: Db, id: Id, purge: bool): Option<Db> {
    if purge then Purge(db, id)
    else if InUse(db, id) then Some(db)
    else DeleteNodeRow(db, id)
  }

  // ---- opening a database --------------------------------------------------------------------

  /** The node the configuration names, inserted or updated. Its credential is not part of this model. */
  function Upsert(nodes: map<Id, Node>, id: Id, origin: string, modelId: string): map<Id, Node> {
    nodes[id := if id in nodes then nodes[id].(origin := origin, modelId := modelId) else Node(origin, modelId, true, None)]
  }

  function TargetKeys(keys: map<Id, ApiKey>, id: Id): map<Id, ApiKey> {
    map k | k in keys :: if keys[k].node.None? then keys[k].(node := Some(id)) else keys[k]
  }

  /** Two statements: rows without a node get the default node and model, then rows still without
      a model get the default model. */
  function TargetConversations(conversations: map<Id, Conversation>, id: Id, modelId: string): map<Id, Conversation> {
    map c | c in conversations ::
      if conversations[c].node.None? then Conversation(Some(id), Some(modelId))
      else if conversations[c].modelId.None? then conversations[c].(modelId := Some(modelId))
      else conversations[c]
  }

  function TargetRequests(requests: map<Id, RequestRow>, id: Id): map<Id, RequestRow> {
    map q | q in requests :: if requests[q].node.None? then requests[q].(node := Some(id)) else requests[q]
  }

  /** `owner` says which node each random row id is drawn for. */
  predicate RowsFor(nodes: set<Id>, models: map<Id, ModelRow>, owner: map<Id, Id>) {
    (forall r :: r in owner ==> r !in models)
    && (forall r, q :: r in owner && q in owner && owner[r] == owner[q] ==> r == q)
    && (forall n :: n in nodes ==> exists r :: r in owner && owner[r] == n)
  }

  /** A row of the primary model for every node that has none. */
  function Backfill(nodes: map<Id, Node>, models: map<Id, ModelRow>, owner: map<Id, Id>): map<Id, ModelRow> {
    map r | r in owner && owner[r] in nodes && !ModelTaken(models, owner[r], nodes[owner[r]].modelId) ::
      ModelRow(owner[r], nodes[owner[r]].modelId, true)
  }

  predicate OriginTaken(nodes: map<Id, Node>, id: Id, origin: string) {
    exists n :: n in nodes && n != id && nodes[n].origin == origin
  }

  function Open(db: Db, id: Id, origin: string, modelId: string, owner: map<Id, Id>): Option<Db> {
    if OriginTaken(db.nodes, id, origin) then None
    else
      var nodes := Upsert(db.nodes, id, origin, modelId);
      Some(db.(nodes := nodes,
               keys := TargetKeys(db.keys, id),
               conversations := TargetConversations(db.conversations, id, modelId),
               requests := TargetRequests(db.requests, id),
               models := db.models + Backfill(nodes, db.models, owner)))
  }
}
