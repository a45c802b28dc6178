/** Conversations and the generations that answer in them: the handlers for messages, targets,
    stopping and deleting, interleaved in any order with the writes of running generations. Message
    rows are kept in insertion order. */
module Conversation {
  import opened Text

  type Id = string

  datatype Role = System | User | Assistant
  datatype Message = Message(role: Role, content: string)
  datatype Target = Target(node: Id, model: string)
  datatype Chat = Chat(target: Target, system: string, messages: seq<Message>)

  /** A running handler: the row it writes, what it has written, and whether it was asked to stop. */
  datatype Generation = Generation(chat: Id, row: nat, target: Target, text: string, aborted: bool)

  /** What was sent upstream. */
  datatype Payload = Payload(chat: Id, model: string, messages: seq<Message>)

  /** `active` is the map of the handlers; `running` are the handlers that have not returned;
      `payloads` and `ids` record the run. */
  datatype State = State(
    chats: map<Id, Chat>,
    active: map<Id, nat>,
    running: map<nat, Generation>,
    payloads: seq<Payload>,
    ids: set<Id>,
    generations: set<nat>)

  datatype Event =
    | Create(id: Id, target: Target, system: string)
    | Post(id: Id, body: string, usable: bool, generation: nat)
    | Write(generation: nat, more: string)
    | End(generation: nat)
    | Stop(id: Id)
    | Retarget(id: Id, target: Target, usable: bool)
    | Delete(id: Id)
    | Restart

  const LONGEST := 200_000

  datatype Answer = Ok | Bad | NotFound | Conflict | TooLarge | Unavailable

  /** The checks of the message handler, in its order. `usable` says that the conversation's node
      and model can serve. */
  function PostAnswer(s: State, id: Id, body: string, usable: bool): Answer {
    if id !in s.chats then NotFound
    else if id in s.active then Conflict
    else if Trim(body) == "" then Bad
    else if |Trim(body)| > LONGEST then TooLarge
    else if !usable then Unavailable
    else Ok
  }

  function RetargetAnswer(s: State, id: Id, usable: bool): Answer {
    if id !in s.chats then NotFound else if id in s.active then Conflict else if !usable then Bad else Ok
  }

  /** New identifiers; only running handlers write and return. */
  predicate Enabled(s: State, e: Event) {
    match e
    case Create(id, _, _) => id !in s.ids
    case Post(_, _, _, generation) => generation !in s.generations
    case Write(generation, _) => generation in s.running
    case End(generation) => generation in s.running
    case _ => true
  }

  function PostStep(s: State, id: Id, body: string, generation: nat): State
    requires id in s.chats
  {
    var chat := s.chats[id];
    var asked := chat.messages + [Message(User, Trim(body))];
    s.(chats := s.chats[id := chat.(messages := asked + [Message(Assistant, "")])],
       active := s.active[id := generation],
       running := s.running[generation := Generation(id, |asked|, chat.target, "", false)],
       payloads := s.payloads + [Payload(id, chat.target.model, [Message(System, chat.system)] + asked)],
       generations := s.generations + {generation})
  }

  /** A row of a conversation that is gone is not found, and nothing is written. */
  function Rewrite(chats: map<Id, Chat>, id: Id, row: nat, content: string): map<Id, Chat> {
    if id in chats && row < |chats[id].messages| then
      chats[id := chats[id].(messages := chats[id].messages[row := chats[id].messages[row].(content := content)])]
    else chats
  }

  function WriteStep(s: State, generation: nat, more: string): State
    requires generation in s.running
  {
    var g := s.running[generation];
    s.(chats := Rewrite(s.chats, g.chat, g.row, g.text + more),
       running := s.running[generation := g.(text := g.text + more)])
  }

  /** The `finally` of the handler: it clears the entry only when that is its own. */
  function EndStep(s: State, generation: nat): State
    requires generation in s.running
  {
    var id := s.running[generation].chat;
    s.(active := if id in s.active && s.active[id] == generation then s.active - {id} else s.active,
       running := s.running - {generation})
  }

  function StopStep(s: State, id: Id): State {
    if id in s.active && s.active[id] in s.running then
      s.(running := s.running[s.active[id] := s.running[s.active[id]].(aborted := true)])
    else s
  }

  function Step(s: State, e: Event): State
    requires Enabled(s, e)
  {
    match e
    case Create(id, target, system) => s.(chats := s.chats[id := Chat(target, system, [])], ids := s.ids + {id})
    case Post(id, body, usable, generation) =>
      if PostAnswer(s, id, body, usable) == Ok then PostStep(s, id, body, generation) else s
    case Write(generation, more) => WriteStep(s, generation, more)
    case End(generation) => EndStep(s, generation)
    case Stop(id) => StopStep(s, id)
    case Retarget(id, target, usable) =>
      if RetargetAnswer(s, id, usable) == Ok then s.(chats := s.chats[id := s.chats[id].(target := target)]) else s
    case Delete(id) => s.(chats := s.chats - {id})
    case Restart => s.(active := map[], running := map[])
  }

  const EMPTY := State(map[], map[], map[], [], {}, {})

  predicate Reaches(first: State, events: seq<Event>, last: State)
    decreases |events|
  {
    if events == [] then first == last
    else Enabled(first, events[0]) && Reaches(Step(first, events[0]), events[1..], last)
  }

  // ---- what every step keeps --------------------------------------------------------------------

  function Turn(i: nat): Role {
    if i % 2 == 0 then User else Assistant
  }

  predicate Alternate(messages: seq<Message>) {
    forall i :: 0 <= i < |messages| ==> messages[i].role == Turn(i)
  }

  predicate Paired(messages: seq<Message>) {
    |messages| % 2 == 0 && Alternate(messages)
  }

  predicate ChatsPaired(chats: map<Id, Chat>) {
    forall c :: c in chats ==> Paired(chats[c].messages)
  }

  /** The map of active generations and the running handlers are the same one-to-one relation. */
  predicate OneEach(active: map<Id, nat>, running: map<nat, Generation>) {
    (forall c :: c in active ==> active[c] in running && running[active[c]].chat == c)
    && (forall g :: g in running ==> running[g].chat in active && active[running[g].chat] == g)
  }

  /** The generation writes the last row of its conversation, which holds what it has written, and
      the conversation still has the target it was started with. */
  predicate Attached(chat: Chat, g: Generation) {
    |chat.messages| > 0 && g.row == |chat.messages| - 1 && chat.messages[g.row].content == g.text
    && chat.target == g.target
  }

  predicate AllAttached(chats: map<Id, Chat>, running: map<nat, Generation>) {
    forall g :: g in running && running[g].chat in chats ==> Attached(chats[running[g].chat], running[g])
  }

  /** A payload is a system message and then turns that alternate and end with the user's. */
  predicate WellFormed(p: Payload) {
    |p.messages| >= 2 && p.messages[0].role == System
    && Alternate(p.messages[1..]) && p.messages[|p.messages| - 1].role == User
  }

  /** What was sent is still what the conversation's history begins with. */
  predicate Remembered(p: Payload, chats: map<Id, Chat>) {
    p.chat in chats && p.messages != [] ==>
      |p.messages| - 1 < |chats[p.chat].messages| && p.messages[1..] <= chats[p.chat].messages
  }

  predicate PayloadsGood(payloads: seq<Payload>, chats: map<Id, Chat>) {
    forall i :: 0 <= i < |payloads| ==> WellFormed(payloads[i]) && Remembered(payloads[i], chats)
  }

  predicate Drawn(s: State) {
    s.chats.Keys <= s.ids && s.running.Keys <= s.generations
    && (forall g :: g in s.running ==> s.running[g].chat in s.ids)
    && forall i :: 0 <= i < |s.payloads| ==> s.payloads[i].chat in s.ids
  }

  predicate Good(s: State) {
    ChatsPaired(s.chats) && OneEach(s.active, s.running) && AllAttached(s.chats, s.running)
    && PayloadsGood(s.payloads, s.chats) && Drawn(s)
  }

  /** Rows but the last stay; the last one is extended. */
  predicate Grown(a: seq<Message>, b: seq<Message>) {
    |a| <= |b|
    && (forall i :: 0 <= i < |a| - 1 ==> a[i] == b[i])
    && (|a| > 0 ==> b[|a| - 1].role == a[|a| - 1].role && a[|a| - 1].content <= b[|a| - 1].content)
  }

  lemma PostTurns(messages: seq<Message>, user: Message, answer: Message)
    requires Paired(messages) && user.role == User && answer.role == Assistant
    ensures Paired(messages + [user] + [answer]) && Alternate(messages + [user])
  {
  }

  lemma PostPayload(chat: Chat, id: Id, user: Message)
    requires Paired(chat.messages) && user.role == User
    ensures WellFormed(Payload(id, chat.target.model, [Message(System, chat.system)] + (chat.messages + [user])))
  {
    var asked := chat.messages + [user];
    PostTurns(chat.messages, user, Message(Assistant, ""));
    var all := [Message(System, chat.system)] + asked;
    assert all[1..] == asked;
  }

  /** A conversation whose rows grow still remembers its payloads. */
  lemma StillRemembered(p: Payload, chats: map<Id, Chat>, id: Id, chat: Chat)
    requires Remembered(p, chats)
    requires id in chats ==> |chats[id].messages| <= |chat.messages|
                             && forall i :: 0 <= i < |chats[id].messages| - 1 ==> chats[id].messages[i] == chat.messages[i]
    requires id !in chats ==> p.chat != id
    ensures Remembered(p, chats[id := chat])
  {
    if p.chat == id && p.messages != [] {
      var sent := p.messages[1..];
      assert forall i :: 0 <= i < |sent| ==> sent[i] == chats[id].messages[i];
    }
  }

  lemma AllStillRemembered(s: State, id: Id, chat: Chat)
    requires PayloadsGood(s.payloads, s.chats) && Drawn(s)
    requires id in s.chats ==> |s.chats[id].messages| <= |chat.messages|
                               && forall i :: 0 <= i < |s.chats[id].messages| - 1 ==> s.chats[id].messages[i] == chat.messages[i]
    requires id !in s.chats ==> id !in s.ids
    ensures PayloadsGood(s.payloads, s.chats[id := chat])
  {
    hide Remembered, WellFormed;
    forall i | 0 <= i < |s.payloads| ensures Remembered(s.payloads[i], s.chats[id := chat]) {
      StillRemembered(s.payloads[i], s.chats, id, chat);
    }
  }

  lemma CreateKeeps(s: State, id: Id, target: Target, system: string)
    requires Good(s) && Enabled(s, Create(id, target, system))
    ensures Good(Step(s, Create(id, target, system)))
  {
    hide PayloadsGood, OneEach;
    AllStillRemembered(s, id, Chat(target, system, []));
  }

  lemma PostKeeps(s: State, id: Id, body: string, generation: nat)
    requires Good(s) && id in s.chats && id !in s.active && generation !in s.generations
    ensures Good(PostStep(s, id, body, generation))
  {
    hide Trim, Remembered, WellFormed, Alternate;
    var chat := s.chats[id];
    var user := Message(User, Trim(body));
    var asked := chat.messages + [user];
    var t := PostStep(s, id, body, generation);
    PostTurns(chat.messages, user, Message(Assistant, ""));
    PostPayload(chat, id, user);
    AllStillRemembered(s, id, t.chats[id]);
    JustSent(chat, id, user, t.chats);
  }

  lemma JustSent(chat: Chat, id: Id, user: Message, chats: map<Id, Chat>)
    requires id in chats && chats[id].messages == chat.messages + [user] + [Message(Assistant, "")]
    ensures Remembered(Payload(id, chat.target.model, [Message(System, chat.system)] + (chat.messages + [user])), chats)
  {
    var all := [Message(System, chat.system)] + (chat.messages + [user]);
    assert all[1..] == chat.messages + [user];
  }

  lemma WriteKeeps(s: State, generation: nat, more: string)
    requires Good(s) && generation in s.running
    ensures Good(WriteStep(s, generation, more))
  {
    hide Remembered, WellFormed;
    var g := s.running[generation];
    if g.chat in s.chats {
      assert Attached(s.chats[g.chat], g);
      AllStillRemembered(s, g.chat, Rewrite(s.chats, g.chat, g.row, g.text + more)[g.chat]);
    }
  }

  lemma RetargetKeeps(s: State, id: Id, target: Target)
    requires Good(s) && id in s.chats && id !in s.active
    ensures Good(s.(chats := s.chats[id := s.chats[id].(target := target)]))
  {
    hide Remembered, WellFormed, Alternate;
    AllStillRemembered(s, id, s.chats[id].(target := target));
  }

  lemma DeleteKeeps(s: State, id: Id)
    requires Good(s)
    ensures Good(s.(chats := s.chats - {id}))
  {
    hide WellFormed, Alternate, OneEach;
  }

  lemma ReturnKeeps(s: State, e: Event)
    requires Good(s) && Enabled(s, e) && (e.End? || e.Stop? || e.Restart?)
    ensures Good(Step(s, e)) && Step(s, e).chats == s.chats
  {
    hide PayloadsGood, ChatsPaired;
  }

  lemma StepKeeps(s: State, e: Event)
    requires Good(s) && Enabled(s, e)
    ensures Good(Step(s, e))
  {
    hide Good, Trim, PostStep, WriteStep, EndStep, StopStep;
    match e {
      case Create(id, target, system) => CreateKeeps(s, id, target, system);
      case Post(id, body, usable, generation) =>
        if PostAnswer(s, id, body, usable) == Ok { PostKeeps(s, id, body, generation); }
      case Write(generation, more) => WriteKeeps(s, generation, more);
      case Retarget(id, target, usable) =>
        if RetargetAnswer(s, id, usable) == Ok { RetargetKeeps(s, id, target); }
      case Delete(id) => DeleteKeeps(s, id);
      case _ => ReturnKeeps(s, e);
    }
  }

  lemma {:induction false} ReachableGood(first: State, events: seq<Event>, last: State)
    requires Good(first) && Reaches(first, events, last)
    ensures Good(last)
    decreases |events|
  {
    hide Good, Step, Enabled;
    if events != [] {
      StepKeeps(first, events[0]);
      ReachableGood(Step(first, events[0]), events[1..], last);
    }
  }

  // ---- how a history grows -----------------------------------------------------------------------

  lemma GrownTransitive(a: seq<Message>, b: seq<Message>, c: seq<Message>)
    requires Grown(a, b) && Grown(b, c)
    ensures Grown(a, c)
  {
    if |a| > 0 && |a| == |b| {
      var x, y, z := a[|a| - 1].content, b[|a| - 1].content, c[|a| - 1].content;
      assert x <= y && y <= z;
      assert x == z[..|x|];
    }
  }

  /** One step: rows but the last stay and the last one is extended; in a conversation without a
      running generation no row changes at all. */
  lemma StepGrows(s: State, e: Event, id: Id)
    requires Good(s) && Enabled(s, e) && id in s.chats && id in Step(s, e).chats
    ensures Grown(s.chats[id].messages, Step(s, e).chats[id].messages)
    ensures id !in s.active ==> s.chats[id].messages <= Step(s, e).chats[id].messages
    ensures id !in s.active && id in Step(s, e).active ==> |s.chats[id].messages| < |Step(s, e).chats[id].messages|
    ensures id in s.active ==> Step(s, e).chats[id].target == s.chats[id].target
  {
    hide Trim, PayloadsGood, ChatsPaired;
    match e {
      case Write(generation, more) =>
        var g := s.running[generation];
        if g.chat == id {
          assert Attached(s.chats[id], g);
          assert g.text <= g.text + more;
        }
      case Post(chat, body, usable, generation) =>
      case _ =>
    }
  }

  lemma StepsForget(s: State, e: Event, id: Id)
    requires Good(s) && Enabled(s, e) && id in s.ids && id !in s.chats
    ensures id !in Step(s, e).chats && id in Step(s, e).ids
  {
    hide Trim, PayloadsGood, ChatsPaired, AllAttached, OneEach;
  }

  lemma {:induction false} Forgotten(first: State, events: seq<Event>, last: State, id: Id)
    requires Good(first) && Reaches(first, events, last) && id in first.ids && id !in first.chats
    ensures id !in last.chats
    decreases |events|
  {
    hide Good, Step, Enabled;
    if events != [] {
      StepKeeps(first, events[0]);
      StepsForget(first, events[0], id);
      Forgotten(Step(first, events[0]), events[1..], last, id);
    }
  }

  /** From any reachable state on, whatever the interleaving: the history of a conversation only
      grows, and only its last row, an assistant's, is ever extended. */
  lemma {:induction false} HistoryGrows(first: State, events: seq<Event>, last: State, id: Id)
    requires Good(first) && Reaches(first, events, last) && id in first.chats && id in last.chats
    ensures Grown(first.chats[id].messages, last.chats[id].messages)
    decreases |events|
  {
    hide Good, Step, Enabled, Grown;
    if events == [] {
      SameGrown(first.chats[id].messages);
    } else {
      var mid := Step(first, events[0]);
      StepKeeps(first, events[0]);
      if id !in mid.chats {
        KnownId(first, id);
        IdsStay(first, events[0]);
        Forgotten(mid, events[1..], last, id);
      }
      StepGrows(first, events[0], id);
      HistoryGrows(mid, events[1..], last, id);
      GrownTransitive(first.chats[id].messages, mid.chats[id].messages, last.chats[id].messages);
    }
  }

  lemma SameGrown(a: seq<Message>)
    ensures Grown(a, a)
  {
  }

  lemma KnownId(s: State, id: Id)
    requires Good(s) && id in s.chats
    ensures id in s.ids
  {
    hide PayloadsGood, ChatsPaired, AllAttached, OneEach;
  }

  lemma IdsStay(s: State, e: Event)
    requires Enabled(s, e)
    ensures s.ids <= Step(s, e).ids
  {
    hide Trim;
  }

  /** Rows of a conversation in which nothing is being generated are settled for good. */
  lemma {:induction false} SettledForGood(first: State, events: seq<Event>, last: State, id: Id)
    requires Good(first) && Reaches(first, events, last) && id in first.chats && id in last.chats && id !in first.active
    ensures first.chats[id].messages <= last.chats[id].messages
    decreases |events|
  {
    hide Good, Step, Enabled;
    if events != [] {
      var mid := Step(first, events[0]);
      StepKeeps(first, events[0]);
      if id !in mid.chats {
        KnownId(first, id);
        IdsStay(first, events[0]);
        Forgotten(mid, events[1..], last, id);
      }
      StepGrows(first, events[0], id);
      if id in mid.active {
        HistoryGrows(mid, events[1..], last, id);
        PrefixGrows(first.chats[id].messages, mid.chats[id].messages, last.chats[id].messages);
      } else {
        SettledForGood(mid, events[1..], last, id);
        PrefixTwice(first.chats[id].messages, mid.chats[id].messages, last.chats[id].messages);
      }
    }
  }

  lemma PrefixGrows(a: seq<Message>, b: seq<Message>, c: seq<Message>)
    requires a <= b && |a| < |b| && Grown(b, c)
    ensures a <= c
  {
    assert forall i :: 0 <= i < |a| ==> a[i] == c[i];
  }

  lemma PrefixTwice(a: seq<Message>, b: seq<Message>, c: seq<Message>)
    requires a <= b && b <= c
    ensures a <= c
  {
    assert forall i :: 0 <= i < |a| ==> a[i] == c[i];
  }

  // ---- what an answer holds --------------------------------------------------------------------------

  /** The texts a generation writes, one after the other. */
  function WrittenBy(events: seq<Event>, generation: nat): string {
    if events == [] then ""
    else (if events[0].Write? && events[0].generation == generation then events[0].more else "") + WrittenBy(events[1..], generation)
  }

  /** Row `r` of the conversation holds what the generation has written, and is written by no other. */
  ghost predicate Holds(s: State, id: Id, r: nat, g: nat, text: string) {
    g in s.generations && id in s.ids
    && (id in s.chats ==> r < |s.chats[id].messages| && s.chats[id].messages[r] == Message(Assistant, text))
    && (g in s.running ==> s.running[g].chat == id && s.running[g].row == r && s.running[g].text == text)
    && (g !in s.running && id in s.chats && id in s.active ==> r + 1 < |s.chats[id].messages|)
  }

  lemma WriteHolds(s: State, h: nat, more: string, id: Id, r: nat, g: nat, text: string)
    requires Good(s) && h in s.running && Holds(s, id, r, g, text)
    ensures Holds(WriteStep(s, h, more), id, r, g, if h == g then text + more else text)
  {
    hide PayloadsGood, ChatsPaired, Drawn;
    if h != g && s.running[h].chat == id && id in s.chats {
      assert Attached(s.chats[id], s.running[h]);
    }
  }

  lemma PostHolds(s: State, chat: Id, body: string, h: nat, id: Id, r: nat, g: nat, text: string)
    requires Good(s) && chat in s.chats && chat !in s.active && h !in s.generations && Holds(s, id, r, g, text)
    ensures Holds(PostStep(s, chat, body, h), id, r, g, text)
  {
    hide PayloadsGood, ChatsPaired, AllAttached, Trim;
  }

  lemma StepHolds(s: State, e: Event, id: Id, r: nat, g: nat, text: string)
    requires Good(s) && Enabled(s, e) && Holds(s, id, r, g, text)
    ensures Holds(Step(s, e), id, r, g, text + WrittenBy([e], g))
  {
    hide PayloadsGood, ChatsPaired, AllAttached, Trim, PostStep, WriteStep;
    assert [e][1..] == [] && WrittenBy([e][1..], g) == "";
    assert WrittenBy([e], g) == if e.Write? && e.generation == g then e.more else "";
    match e {
      case Write(h, more) => WriteHolds(s, h, more, id, r, g, text);
      case Post(chat, body, usable, h) =>
        if PostAnswer(s, chat, body, usable) == Ok { PostHolds(s, chat, body, h, id, r, g, text); }
      case _ =>
    }
  }

  lemma {:induction false} RowFollows(first: State, events: seq<Event>, last: State, id: Id, r: nat, g: nat, text: string)
    requires Good(first) && Reaches(first, events, last) && Holds(first, id, r, g, text)
    ensures Holds(last, id, r, g, text + WrittenBy(events, g))
    decreases |events|
  {
    hide Good, Step, Enabled, Holds;
    if events != [] {
      StepKeeps(first, events[0]);
      StepHolds(first, events[0], id, r, g, text);
      WrittenHead(events, g);
      var t, u, v := text, WrittenBy([events[0]], g), WrittenBy(events[1..], g);
      assert t + (u + v) == (t + u) + v;
      RowFollows(Step(first, events[0]), events[1..], last, id, r, g, text + u);
    } else {
      assert text + "" == text;
    }
  }

  lemma WrittenHead(events: seq<Event>, g: nat)
    requires events != []
    ensures WrittenBy(events, g) == WrittenBy([events[0]], g) + WrittenBy(events[1..], g)
  {
    assert [events[0]][1..] == [];
    var w := if events[0].Write? && events[0].generation == g then events[0].more else "";
    assert WrittenBy([events[0]], g) == w + "";
  }

  /** A message that is accepted puts the user's turn and an answer at the end of the conversation; from
      then on, whatever else happens, the answer holds exactly what its generation has written so far,
      one text after the other, until the conversation is deleted. */
  lemma AnswerHolds(s: State, id: Id, body: string, usable: bool, g: nat, events: seq<Event>, last: State)
    requires Good(s) && Enabled(s, Post(id, body, usable, g)) && PostAnswer(s, id, body, usable) == Ok
    requires Reaches(Step(s, Post(id, body, usable, g)), events, last) && id in last.chats
    ensures var n, rows := |s.chats[id].messages|, last.chats[id].messages;
            n + 1 < |rows| && rows[n + 1] == Message(Assistant, WrittenBy(events, g)) && rows[n] == Message(User, Trim(body))
            && rows[..n] == s.chats[id].messages
  {
    hide Good, Trim, Reaches, Grown;
    var e := Post(id, body, usable, g);
    var t := Step(s, e);
    StepKeeps(s, e);
    KnownId(s, id);
    assert t == PostStep(s, id, body, g);
    var n := |s.chats[id].messages|;
    assert Holds(t, id, n + 1, g, "");
    RowFollows(t, events, last, id, n + 1, g, "");
    assert "" + WrittenBy(events, g) == WrittenBy(events, g);
    HistoryGrows(t, events, last, id);
    BeforeLast(t.chats[id].messages, last.chats[id].messages, s.chats[id].messages, Message(User, Trim(body)));
  }

  lemma BeforeLast(a: seq<Message>, b: seq<Message>, settled: seq<Message>, user: Message)
    requires Grown(a, b) && a == settled + [user] + [Message(Assistant, "")]
    ensures |settled| + 1 < |b| && b[|settled|] == user && b[..|settled|] == settled
  {
    assert forall i :: 0 <= i < |settled| + 1 ==> a[i] == b[i];
  }

  // ---- the results --------------------------------------------------------------------------------

  /** In every reachable state: each conversation has at most one running generation and its target
      is the one that generation was started with; its rows alternate between user and assistant;
      every request ever sent begins with the system message and ends with a user's turn, and its
      turns are still the beginning of the history. */
  lemma ConversationSafety(events: seq<Event>, s: State)
    requires Reaches(EMPTY, events, s)
    ensures forall g, h :: g in s.running && h in s.running && s.running[g].chat == s.running[h].chat ==> g == h
    ensures forall g :: g in s.running && s.running[g].chat in s.chats ==>
              s.chats[s.running[g].chat].target == s.running[g].target
    ensures forall c :: c in s.chats ==> Paired(s.chats[c].messages)
    ensures forall i :: 0 <= i < |s.payloads| ==> WellFormed(s.payloads[i]) && Remembered(s.payloads[i], s.chats)
  {
    hide Paired, WellFormed, Remembered;
    assert Good(EMPTY);
    ReachableGood(EMPTY, events, s);
  }

  // ---- the handlers ---------------------------------------------------------------------------------

  /** The dashboard process: the store's conversations and the map of active generations. A generation
      stands for the handler's abort controller. */
  class Dashboard {
    var chats: map<Id, Chat>
    var activeGenerations: map<Id, nat>
    var running: map<nat, Generation>
    ghost var payloads: seq<Payload>
    ghost var ids: set<Id>
    ghost var generations: set<nat>

    ghost function View(): State
      reads this
    {
      State(chats, activeGenerations, running, payloads, ids, generations)
    }

    constructor ()
      ensures View() == EMPTY
    {
      chats, activeGenerations, running := map[], map[], map[];
      payloads, ids, generations := [], {}, {};
    }

    method AddMessage(id: Id, message: Message)
      requires id in chats
      modifies this`chats
      ensures chats == old(chats)[id := old(chats)[id].(messages := old(chats)[id].messages + [message])]
    {
      chats := chats[id := chats[id].(messages := chats[id].messages + [message])];
    }

    /** The handler up to its first wait: from the checks to the row that will hold the answer. */
    method PostMessage(id: Id, body: string, usable: bool, controller: nat) returns (answer: Answer, sent: seq<Message>)
      requires Good(View()) && Enabled(View(), Post(id, body, usable, controller))
      modifies this
      ensures answer == PostAnswer(old(View()), id, body, usable)
      ensures View() == Step(old(View()), Post(id, body, usable, controller)) && Good(View())
      ensures answer == Ok <==> id in old(chats) && id !in old(activeGenerations) && 1 <= |Trim(body)| <= LONGEST && usable
      ensures answer == NotFound <==> id !in old(chats)
      ensures answer == Conflict <==> id in old(chats) && id in old(activeGenerations)
      ensures answer == Ok ==> payloads == old(payloads) + [Payload(id, old(chats)[id].target.model, sent)]
      ensures answer == Ok ==> activeGenerations == old(activeGenerations)[id := controller] && id in chats
      ensures answer == Ok ==>
              chats[id].messages == old(chats)[id].messages + [Message(User, Trim(body)), Message(Assistant, "")]
      ensures answer == Ok ==>
              sent == [Message(System, old(chats)[id].system)] + old(chats)[id].messages + [Message(User, Trim(body))]
    {
      hide Trim, Good;
      ghost var before := View();
      StepKeeps(before, Post(id, body, usable, controller));
      sent := [];
      if id !in chats {
        return NotFound, [];
      }
      if id in activeGenerations {
        return Conflict, [];
      }
      var content := Trim(body);
      if content == "" {
        return Bad, [];
      }
      if |content| > LONGEST {
        return TooLarge, [];
      }
      if !usable {
        return Unavailable, [];
      }
      activeGenerations := activeGenerations[id := controller];
      AddMessage(id, Message(User, content));
      var updated := chats[id];
      sent := [Message(System, updated.system)] + updated.messages;
      payloads := payloads + [Payload(id, updated.target.model, sent)];
      AddMessage(id, Message(Assistant, ""));
      running := running[controller := Generation(id, |updated.messages|, updated.target, "", false)];
      generations := generations + {controller};
      answer := Ok;
    }

    /** `onProgress` and `onComplete`: the row takes the text accumulated so far. */
    method UpdateMessage(controller: nat, more: string)
      requires Good(View()) && controller in running
      modifies this`chats, this`running
      ensures View() == Step(old(View()), Write(controller, more)) && Good(View())
    {
      hide Good;
      StepKeeps(View(), Write(controller, more));
      var g := running[controller];
      var text := g.text + more;
      if g.chat in chats && g.row < |chats[g.chat].messages| {
        var messages := chats[g.chat].messages;
        chats := chats[g.chat := chats[g.chat].(messages := messages[g.row := messages[g.row].(content := text)])];
      }
      running := running[controller := g.(text := text)];
    }

    method Finally(controller: nat)
      requires Good(View()) && controller in running
      modifies this`activeGenerations, this`running
      ensures View() == Step(old(View()), End(controller)) && Good(View())
      ensures old(running)[controller].chat !in activeGenerations
    {
      var id := running[controller].chat;
      StepKeeps(View(), End(controller));
      hide Good;
      if id in activeGenerations && activeGenerations[id] == controller {
        activeGenerations := activeGenerations - {id};
      }
      running := running - {controller};
    }

    method SetTarget(id: Id, target: Target, usable: bool) returns (answer: Answer)
      requires Good(View())
      modifies this`chats
      ensures answer == RetargetAnswer(old(View()), id, usable)
      ensures View() == Step(old(View()), Retarget(id, target, usable)) && Good(View())
      ensures answer == Ok <==> id in old(chats) && id !in activeGenerations && usable
      ensures answer == NotFound <==> id !in old(chats)
      ensures answer == Conflict <==> id in old(chats) && id in activeGenerations
      ensures answer == Ok ==> id in chats && chats[id] == old(chats)[id].(target := target)
    {
      hide Good;
      StepKeeps(View(), Retarget(id, target, usable));
      if id !in chats {
        return NotFound;
      }
      if id in activeGenerations {
        return Conflict;
      }
      if !usable {
        return Bad;
      }
      chats := chats[id := chats[id].(target := target)];
      answer := Ok;
    }

    /** Stopping finds a running handler exactly when the conversation has an active generation. */
    method StopGeneration(id: Id) returns (answer: Answer)
      requires Good(View())
      modifies this`running
      ensures answer == if id in activeGenerations then Ok else Conflict
      ensures View() == Step(old(View()), Stop(id)) && Good(View())
      ensures answer == Ok ==> activeGenerations[id] in running && running[activeGenerations[id]].aborted
    {
      StepKeeps(View(), Stop(id));
      if id !in activeGenerations {
        return Conflict;
      }
      var controller := activeGenerations[id];
      assert controller in running;
      hide Good;
      running := running[controller := running[controller].(aborted := true)];
      answer := Ok;
    }

    method DeleteConversation(id: Id) returns (deleted: bool)
      requires Good(View())
      modifies this`chats
      ensures View() == Step(old(View()), Delete(id)) && Good(View())
      ensures deleted == (id in old(chats)) && chats == old(chats) - {id}
    {
      hide Good;
      StepKeeps(View(), Delete(id));
      deleted := id in chats;
      chats := chats - {id};
    }
  }
}
