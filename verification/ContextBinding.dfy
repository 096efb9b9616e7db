/**
  The typed pack: the refinements of agentContextPackSchema (packages/contracts/src/workspace.ts:624-759),
  adapterContext over it, and the checks by which the adapter binds what it received to the event
  that it asked about (adapter.py:376-423).
 */
module ContextBinding {
  import opened Wrappers
  import opened Decimals
  import opened JsonText
  import opened JsonRoundTrip
  import opened ContextPack

  datatype Author = Author(id: Text, kind: Text, username: Text, displayName: Text)

  datatype Message = Message(
    id: Text,
    conversationSequence: string,
    createdAt: Text,
    body: Text,
    author: Author,
    mentionedYou: bool,
    threadRootId: Option<Text>)

  datatype Location =
    | Channel(id: Text, slug: Text, selector: Text)
    | DirectMessage(id: Text, selector: Text, peer: Author, self: bool)

  datatype ReplyTarget =
    | Flat(conversationId: Text)
    | Thread(conversationId: Text, rootMessageId: Text)

  datatype Pack = Pack(
    conversation: Location,
    anchorMessageId: Option<Text>,
    messages: seq<Message>,
    threadRoot: Option<Message>,
    replyTarget: Option<ReplyTarget>,
    readThroughMessageId: Option<Text>,
    truncatedBefore: bool,
    nextCursor: Option<Text>)

  // ---------------------------------------------------------------------------------------------
  // The schema's refinements
  // ---------------------------------------------------------------------------------------------

  predicate Chronological(messages: seq<Message>)
  {
    && (forall i :: 0 <= i < |messages| ==> AllDigits(messages[i].conversationSequence))
    && (forall i, j :: 0 <= i < j < |messages| ==>
          Value(messages[i].conversationSequence) < Value(messages[j].conversationSequence))
  }

  predicate Unique(messages: seq<Message>)
  {
    forall i, j :: 0 <= i < j < |messages| ==> messages[i].id != messages[j].id
  }

  /** The loop of the refinement: a set of ids and the previous sequence decide both orders. */
  method CheckMessages(messages: seq<Message>) returns (ok: bool)
    requires forall i :: 0 <= i < |messages| ==> AllDigits(messages[i].conversationSequence)
    ensures ok <==> Chronological(messages) && Unique(messages)
  {
    ok := true;
    var ids: set<Text> := {};
    var previousSequence: int := -1;
    var index := 0;
    while index < |messages|
      invariant 0 <= index <= |messages|
      invariant ids == set k | 0 <= k < index :: messages[k].id
      invariant previousSequence == if index == 0 then -1 else Value(messages[index - 1].conversationSequence)
      invariant ok <==> Chronological(messages[..index]) && Unique(messages[..index])
    {
      var message := messages[index];
      var sequence := Value(message.conversationSequence);
      ExtendOrder(messages, index);
      if message.id in ids { ok := false; }
      ids := ids + {message.id};
      if sequence <= previousSequence { ok := false; }
      previousSequence := sequence;
      index := index + 1;
    }
    assert messages[..index] == messages;
  }

  lemma ExtendOrder(messages: seq<Message>, n: nat)
    requires n < |messages| && forall i :: 0 <= i < |messages| ==> AllDigits(messages[i].conversationSequence)
    ensures Chronological(messages[..n + 1]) <==>
            Chronological(messages[..n])
            && (n == 0 || Value(messages[n - 1].conversationSequence) < Value(messages[n].conversationSequence))
    ensures Unique(messages[..n + 1]) <==>
            Unique(messages[..n]) && messages[n].id !in (set k | 0 <= k < n :: messages[k].id)
  {
    var longer, shorter := messages[..n + 1], messages[..n];
    if Chronological(longer) {
      forall i, j | 0 <= i < j < n ensures Value(shorter[i].conversationSequence) < Value(shorter[j].conversationSequence) {
        assert longer[i] == shorter[i] && longer[j] == shorter[j];
      }
      if n > 0 { assert longer[n - 1] == messages[n - 1] && longer[n] == messages[n]; }
    }
    if Chronological(shorter) && (n == 0 || Value(messages[n - 1].conversationSequence) < Value(messages[n].conversationSequence)) {
      forall i, j | 0 <= i < j < n + 1 ensures Value(longer[i].conversationSequence) < Value(longer[j].conversationSequence) {
        if j < n { assert longer[i] == shorter[i] && longer[j] == shorter[j]; }
        else if i < n - 1 { assert longer[i] == shorter[i] && shorter[n - 1] == messages[n - 1]; }
      }
    }
    if Unique(longer) {
      forall i, j | 0 <= i < j < n ensures shorter[i].id != shorter[j].id {
        assert longer[i] == shorter[i] && longer[j] == shorter[j];
      }
      forall k | 0 <= k < n ensures messages[k].id != messages[n].id {
        assert longer[k] == messages[k] && longer[n] == messages[n];
      }
    }
  }

  function KindOf(location: Location): Text
  {
    if location.Channel? then Chars("channel") else Chars("direct_message")
  }

  predicate EmptyOk(p: Pack)
  {
    var empty := p.messages == [];
    && (empty <==> p.anchorMessageId.None? && p.replyTarget.None? && p.readThroughMessageId.None?)
    && (empty ==> p.threadRoot.None? && !p.truncatedBefore && p.nextCursor.None?)
    && (p.truncatedBefore <==> p.nextCursor.Some?)
  }

  predicate AnchorOk(p: Pack)
  {
    p.messages != [] ==>
      var anchor := p.messages[|p.messages| - 1];
      && p.anchorMessageId == Some(anchor.id) && p.readThroughMessageId == Some(anchor.id)
      && p.replyTarget.Some? && p.replyTarget.value.conversationId == p.conversation.id
      && (if p.conversation.DirectMessage? then p.replyTarget.value.Flat?
          else p.replyTarget.value.Thread?
               && p.replyTarget.value.rootMessageId
                  == (if anchor.threadRootId.Some? then anchor.threadRootId.value else anchor.id))
  }

  predicate ThreadRootOk(p: Pack)
  {
    p.threadRoot.Some? ==>
      var root := p.threadRoot.value;
      && (forall i :: 0 <= i < |p.messages| ==> p.messages[i].id != root.id)
      && root.threadRootId.None?
      && p.replyTarget.Some? && p.replyTarget.value.Thread? && p.replyTarget.value.rootMessageId == root.id
  }

  predicate LocationOk(l: Location)
  {
    match l
    case Channel(_, slug, selector) => selector == Chars("#") + slug
    case DirectMessage(_, selector, peer, _) => selector == Chars("@") + peer.username
  }

  predicate SchemaOk(p: Pack)
  {
    && LocationOk(p.conversation) && |p.messages| <= AGENT_CONTEXT_PACK_MAX_LIMIT
    && EmptyOk(p) && Chronological(p.messages) && Unique(p.messages) && AnchorOk(p) && ThreadRootOk(p)
    && |Utf8Encode(ToInjectionSafeCompactJson(PackJson(p)))| <= AGENT_CONTEXT_PACK_MAX_BYTES
  }

  // ---------------------------------------------------------------------------------------------
  // JSON
  // ---------------------------------------------------------------------------------------------

  datatype Field = Field(name: string, value: Json)

  function Obj(fields: seq<Field>): Json
  {
    Object(seq(|fields|, i requires 0 <= i < |fields| => Member(Chars(fields[i].name), fields[i].value)))
  }

  function OrNull(t: Option<Text>): Json
  {
    if t.Some? then Str(t.value) else Null
  }

  function AuthorJson(a: Author): Json
  {
    Obj([Field("id", Str(a.id)), Field("kind", Str(a.kind)), Field("username", Str(a.username)),
         Field("displayName", Str(a.displayName))])
  }

  function MessageFields(m: Message): seq<Field>
  {
    [Field("id", Str(m.id)), Field("conversationSequence", Str(Chars(m.conversationSequence))),
     Field("createdAt", Str(m.createdAt)), Field("body", Str(m.body)), Field("author", AuthorJson(m.author)),
     Field("mentionedYou", Bool(m.mentionedYou)), Field("threadRootId", OrNull(m.threadRootId))]
  }

  function MessageJson(m: Message): Json
  {
    Obj(MessageFields(m))
  }

  function LocationFields(l: Location): seq<Field>
  {
    match l
    case Channel(id, slug, selector) =>
      [Field("id", Str(id)), Field("kind", Str(KindOf(l))), Field("slug", Str(slug)), Field("selector", Str(selector))]
    case DirectMessage(id, selector, peer, self) =>
      [Field("id", Str(id)), Field("kind", Str(KindOf(l))), Field("selector", Str(selector)),
       Field("peer", AuthorJson(peer)), Field("self", Bool(self))]
  }

  function TargetFields(t: ReplyTarget): seq<Field>
  {
    match t
    case Flat(conversationId) => [Field("kind", Str(Chars("flat"))), Field("conversationId", Str(conversationId))]
    case Thread(conversationId, root) =>
      [Field("kind", Str(Chars("thread"))), Field("conversationId", Str(conversationId)), Field("rootMessageId", Str(root))]
  }

  function MessageArray(messages: seq<Message>): (items: seq<Json>)
    ensures |items| == |messages|
    ensures forall i :: 0 <= i < |messages| ==> items[i] == MessageJson(messages[i])
  {
    seq(|messages|, i requires 0 <= i < |messages| => MessageJson(messages[i]))
  }

  function PackFields(p: Pack): seq<Field>
  {
    [Field("version", Number(1)), Field("conversation", Obj(LocationFields(p.conversation))),
     Field("anchorMessageId", OrNull(p.anchorMessageId)), Field("messages", Array(MessageArray(p.messages))),
     Field("threadRoot", if p.threadRoot.Some? then MessageJson(p.threadRoot.value) else Null),
     Field("replyTarget", if p.replyTarget.Some? then Obj(TargetFields(p.replyTarget.value)) else Null),
     Field("readThroughMessageId", OrNull(p.readThroughMessageId)), Field("truncatedBefore", Bool(p.truncatedBefore)),
     Field("nextCursor", OrNull(p.nextCursor))]
  }

  function PackJson(p: Pack): Json
  {
    Obj(PackFields(p))
  }

  // ---------------------------------------------------------------------------------------------
  // Both sides
  // ---------------------------------------------------------------------------------------------

  /** adapterContext: the context pack and its rendering, or a contract error. */
  function AdapterContext(p: Pack, conversationId: Text, limit: nat, throughMessageId: Option<Text>)
    : Option<(Json, Text)>
  {
    if !SchemaOk(p) || p.conversation.id != conversationId || |p.messages| > limit
       || (throughMessageId.Some? && p.anchorMessageId != throughMessageId) then None
    else Some((PackJson(p), Rendered(ToInjectionSafeCompactJson(PackJson(p)))))
  }

  /** What the adapter knows of the event. */
  datatype Question = Question(
    conversationId: Text,
    conversationKind: Text,
    anchorMessageId: Text,
    anchorAuthorId: Text,
    anchorMentionedYou: bool,
    anchorThreadRootId: Option<Text>,
    requestedLimit: nat)

  /** `dict.get` */
  function Get(members: seq<Member>, name: string): Option<Json>
  {
    if members == [] then None
    else if members[0].key == Chars(name) then Some(members[0].value)
    else Get(members[1..], name)
  }

  function At(j: Json, name: string): Option<Json>
  {
    if j.Object? then Get(j.members, name) else None
  }

  predicate HasAuthor(j: Json)
  {
    j.Object? && At(j, "author").Some? && At(j, "author").value.Object?
  }

  predicate AnchorBound(anchor: Json, q: Question)
  {
    && HasAuthor(anchor)
    && At(anchor, "id") == Some(Str(q.anchorMessageId))
    && At(At(anchor, "author").value, "id") == Some(Str(q.anchorAuthorId))
    && At(anchor, "mentionedYou") == Some(Bool(q.anchorMentionedYou))
    && (if q.anchorThreadRootId.Some? then At(anchor, "threadRootId") == Some(Str(q.anchorThreadRootId.value))
        else At(anchor, "threadRootId").None? || At(anchor, "threadRootId") == Some(Null))
  }

  predicate MessagesBound(messages: Option<Json>, q: Question)
  {
    && messages.Some? && messages.value.Array? && 1 <= |messages.value.items| <= q.requestedLimit
    && (forall i :: 0 <= i < |messages.value.items| ==> HasAuthor(messages.value.items[i]))
    && AnchorBound(messages.value.items[|messages.value.items| - 1], q)
  }

  predicate EnvelopeOk(pack: Json, rendered: Text)
  {
    var lines := SplitLines(rendered);
    && Chars(PREFIX_LINE) + NEWLINE <= rendered
    && |rendered| >= |NEWLINE + Chars(SUFFIX_LINE)|
    && rendered[|rendered| - |NEWLINE + Chars(SUFFIX_LINE)|..] == NEWLINE + Chars(SUFFIX_LINE)
    && |lines| == 4
    && |Utf8Encode(rendered)| <= MAX_RENDERED_CONTEXT_BYTES
    && Loads(lines[|lines| - 2]) == Some(pack)
  }

  /** `_validate_context_pack` accepts. */
  predicate Validates(pack: Json, rendered: Text, q: Question)
  {
    && pack.Object?
    && At(pack, "conversation").Some? && At(pack, "conversation").value.Object?
    && At(At(pack, "conversation").value, "id") == Some(Str(q.conversationId))
    && At(At(pack, "conversation").value, "kind") == Some(Str(q.conversationKind))
    && MessagesBound(At(pack, "messages"), q)
    && At(pack, "anchorMessageId") == Some(Str(q.anchorMessageId))
    && At(pack, "readThroughMessageId") == Some(Str(q.anchorMessageId))
    && At(pack, "replyTarget").Some? && At(pack, "replyTarget").value.Object?
    && At(At(pack, "replyTarget").value, "conversationId") == Some(Str(q.conversationId))
    && EnvelopeOk(pack, rendered)
  }

  // ---------------------------------------------------------------------------------------------
  // Proof
  // ---------------------------------------------------------------------------------------------

  lemma NamesAreKeys(a: string, b: string)
    ensures Chars(a) == Chars(b) <==> a == b
  {
    if Chars(a) == Chars(b) {
      forall i | 0 <= i < |a| ensures a[i] == b[i] { assert Chars(a)[i] == Chars(b)[i]; }
    }
  }

  lemma {:induction false} GetFrom(fields: seq<Field>, members: seq<Member>, i: nat, start: nat)
    requires members == Obj(fields).members && start <= i < |fields|
    requires forall k :: start <= k < i ==> fields[k].name != fields[i].name
    ensures Get(members[start..], fields[i].name) == Some(fields[i].value)
    decreases i - start
  {
    NamesAreKeys(fields[start].name, fields[i].name);
    if start < i {
      assert members[start..][1..] == members[start + 1..];
      GetFrom(fields, members, i, start + 1);
    }
  }

  /** The value of a field whose name no earlier field has. */
  lemma GetField(fields: seq<Field>, i: nat)
    requires i < |fields| && forall k :: 0 <= k < i ==> fields[k].name != fields[i].name
    ensures At(Obj(fields), fields[i].name) == Some(fields[i].value)
  {
    GetFrom(fields, Obj(fields).members, i, 0);
    assert Obj(fields).members[0..] == Obj(fields).members;
  }

  lemma AuthorFields(a: Author)
    ensures AuthorJson(a).Object? && At(AuthorJson(a), "id") == Some(Str(a.id))
  {
    GetField([Field("id", Str(a.id)), Field("kind", Str(a.kind)), Field("username", Str(a.username)),
              Field("displayName", Str(a.displayName))], 0);
  }

  lemma MessageFieldValues(m: Message)
    ensures At(MessageJson(m), "id") == Some(Str(m.id))
    ensures At(MessageJson(m), "author") == Some(AuthorJson(m.author)) && HasAuthor(MessageJson(m))
    ensures At(MessageJson(m), "mentionedYou") == Some(Bool(m.mentionedYou))
    ensures At(MessageJson(m), "threadRootId") == Some(OrNull(m.threadRootId))
  {
    hide At, AuthorJson;
    var f := MessageFields(m);
    GetField(f, 0);
    GetField(f, 4);
    GetField(f, 5);
    GetField(f, 6);
    AuthorFields(m.author);
  }

  lemma PackFieldValues(p: Pack)
    ensures var j := PackJson(p);
      && At(j, "conversation") == Some(Obj(LocationFields(p.conversation)))
      && At(j, "anchorMessageId") == Some(OrNull(p.anchorMessageId))
      && At(j, "messages") == Some(Array(MessageArray(p.messages)))
      && At(j, "replyTarget") == Some(if p.replyTarget.Some? then Obj(TargetFields(p.replyTarget.value)) else Null)
      && At(j, "readThroughMessageId") == Some(OrNull(p.readThroughMessageId))
  {
    hide At, Obj, LocationFields, MessageArray, TargetFields, MessageJson;
    var f := PackFields(p);
    GetField(f, 1);
    GetField(f, 2);
    GetField(f, 3);
    GetField(f, 5);
    GetField(f, 6);
  }

  lemma LocationFieldValues(l: Location)
    ensures At(Obj(LocationFields(l)), "id") == Some(Str(l.id))
    ensures At(Obj(LocationFields(l)), "kind") == Some(Str(KindOf(l)))
  {
    hide At, AuthorJson, KindOf;
    GetField(LocationFields(l), 0);
    GetField(LocationFields(l), 1);
  }

  lemma TargetFieldValues(t: ReplyTarget)
    ensures At(Obj(TargetFields(t)), "conversationId") == Some(Str(t.conversationId))
  {
    hide At;
    GetField(TargetFields(t), 1);
  }

  /** Where a reply to the newest message belongs: flat in a direct message, otherwise in the thread of that message. */
  function ReplyTo(conversation: Location, newest: Message): ReplyTarget
  {
    match conversation
    case DirectMessage(id, _, _, _) => Flat(id)
    case Channel(id, _, _) => Thread(id, match newest.threadRootId case None => newest.id case Some(root) => root)
  }

  /** A separate root is the thread of the newest message, which is a reply in a channel, and is not among the messages. */
  predicate RootOfNewest(p: Pack, newest: Message, root: Message)
  {
    && p.conversation.Channel? && newest.threadRootId == Some(root.id) && root.threadRootId.None?
    && forall m :: m in p.messages ==> m.id != root.id
  }

  /**
    What the refinements leave of a pack: one without messages says nothing else; any other is anchored at its newest
    message, replies where that belongs, and carries no root but the one of its thread.
   */
  lemma SchemaMeans(p: Pack)
    ensures
      var bounded := && LocationOk(p.conversation) && |p.messages| <= AGENT_CONTEXT_PACK_MAX_LIMIT
                     && |Utf8Encode(ToInjectionSafeCompactJson(PackJson(p)))| <= AGENT_CONTEXT_PACK_MAX_BYTES;
      if p.messages == [] then
        SchemaOk(p) <==> bounded && p == Pack(p.conversation, None, [], None, None, None, false, None)
      else
        var newest := p.messages[|p.messages| - 1];
        SchemaOk(p) <==>
          && bounded && Chronological(p.messages) && Unique(p.messages) && (p.truncatedBefore <==> p.nextCursor.Some?)
          && p.anchorMessageId == Some(newest.id) && p.readThroughMessageId == Some(newest.id)
          && p.replyTarget == Some(ReplyTo(p.conversation, newest))
          && (p.threadRoot.Some? ==> RootOfNewest(p, newest, p.threadRoot.value))
  {
    hide Utf8Encode, ToInjectionSafeCompactJson, PackJson, LocationOk;
    if p.messages != [] {
      var newest := p.messages[|p.messages| - 1];
      assert newest in p.messages;
      AnchorMeans(p);
      if p.replyTarget == Some(ReplyTo(p.conversation, newest)) && p.threadRoot.Some? { RootMeans(p); }
      hide AnchorOk, ThreadRootOk, ReplyTo, RootOfNewest, Chronological, Unique;
    }
  }

  lemma AnchorMeans(p: Pack)
    requires p.messages != []
    ensures
      var newest := p.messages[|p.messages| - 1];
      AnchorOk(p) <==>
        && p.anchorMessageId == Some(newest.id) && p.readThroughMessageId == Some(newest.id)
        && p.replyTarget == Some(ReplyTo(p.conversation, newest))
  {
  }

  lemma RootMeans(p: Pack)
    requires p.messages != [] && p.threadRoot.Some?
    requires p.replyTarget == Some(ReplyTo(p.conversation, p.messages[|p.messages| - 1]))
    ensures ThreadRootOk(p) <==> RootOfNewest(p, p.messages[|p.messages| - 1], p.threadRoot.value)
  {
    assert p.messages[|p.messages| - 1] in p.messages;
    assert forall m :: m in p.messages ==> exists i :: 0 <= i < |p.messages| && p.messages[i] == m;
  }

  /** The kind that the adapter compares. */
  lemma KindMeans(l: Location)
    ensures At(Obj(LocationFields(l)), "kind")
            == Some(Str(match l case Channel(_, _, _) => Chars("channel") case DirectMessage(_, _, _, _) => Chars("direct_message")))
  {
    LocationFieldValues(l);
    hide At, Obj, LocationFields, Chars;
  }

  /** Every string of the context pack comes out of a JavaScript string. */
  predicate Readable(p: Pack)
  {
    WellFormed(PackJson(p))
  }

  lemma RenderedEnvelope(p: Pack)
    requires Readable(p) && |Utf8Encode(ToInjectionSafeCompactJson(PackJson(p)))| <= AGENT_CONTEXT_PACK_MAX_BYTES
    ensures EnvelopeOk(PackJson(p), Rendered(ToInjectionSafeCompactJson(PackJson(p))))
  {
    hide WellFormed, PackJson, ToInjectionSafeCompactJson, Utf8Encode, SplitLines, Loads, NoticeLine, Chars;
    var j := PackJson(p);
    var encoded := ToInjectionSafeCompactJson(j);
    RenderedRoundTrip(j);
    PackFits(encoded);
    var rendered, suffix := Rendered(encoded), NEWLINE + Chars(SUFFIX_LINE);
    var head := Chars(PREFIX_LINE) + NEWLINE + (NoticeLine() + NEWLINE + encoded);
    assert rendered == head + suffix;
    assert rendered[|rendered| - |suffix|..] == suffix;
  }

  lemma MessagesMatch(p: Pack, q: Question)
    requires p.messages != []
    ensures
      var anchor := p.messages[|p.messages| - 1];
      MessagesBound(Some(Array(MessageArray(p.messages))), q) <==>
        |p.messages| <= q.requestedLimit && anchor.id == q.anchorMessageId && anchor.author.id == q.anchorAuthorId
        && anchor.mentionedYou == q.anchorMentionedYou && anchor.threadRootId == q.anchorThreadRootId
  {
    hide At, MessageJson, AuthorJson;
    forall i | 0 <= i < |p.messages| ensures HasAuthor(MessageArray(p.messages)[i]) {
      MessageFieldValues(p.messages[i]);
    }
    var anchor := p.messages[|p.messages| - 1];
    MessageFieldValues(anchor);
    AuthorFields(anchor.author);
  }

  /**
    What the CLI accepts for an anchored question the adapter accepts too, if and only if the kind of
    the conversation and the author, mention and thread root of the newest message are the event's.
   */
  lemma AcceptedIsValid(p: Pack, through: Text, q: Question)
    requires Readable(p) && q.anchorMessageId == through
    requires AdapterContext(p, q.conversationId, q.requestedLimit, Some(through)).Some?
    ensures p.messages != []
    ensures
      var (pack, rendered) := AdapterContext(p, q.conversationId, q.requestedLimit, Some(through)).value;
      var anchor := p.messages[|p.messages| - 1];
      Validates(pack, rendered, q) <==>
        KindOf(p.conversation) == q.conversationKind && anchor.author.id == q.anchorAuthorId
        && anchor.mentionedYou == q.anchorMentionedYou && anchor.threadRootId == q.anchorThreadRootId
  {
    hide At, Obj, LocationFields, TargetFields, MessageArray, KindOf, EnvelopeOk, MessagesBound, Utf8Encode,
         ToInjectionSafeCompactJson, Readable, PackFields, Chronological, Unique, LocationOk, ThreadRootOk, Rendered;
    RenderedEnvelope(p);
    PackFieldValues(p);
    LocationFieldValues(p.conversation);
    TargetFieldValues(p.replyTarget.value);
    MessagesMatch(p, q);
    ObjectsAre(PackFields(p), LocationFields(p.conversation), TargetFields(p.replyTarget.value));
  }

  lemma ObjectsAre(a: seq<Field>, b: seq<Field>, c: seq<Field>)
    ensures Obj(a).Object? && Obj(b).Object? && Obj(c).Object?
  {
  }
}
