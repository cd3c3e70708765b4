/**
 * The internal chat tables (`conversations`, `conversation_participants`,
 * `conversation_messages`, `conversation_message_reactions`,
 * `conversation_attachments`): their rows, column defaults, unique and
 * foreign-key constraints with their cascades, and the unread-message rule
 * of a participant. Foreign keys into `users` are not modelled.
 */
module ChatSchema {
  import opened Wrappers

  type Time = int

  datatype Conversation = Conversation(
    id: nat, xid: string, name: Option<string>, kind: string, description: Option<string>,
    createdBy: nat, isArchived: bool, archivedAt: Option<Time>, deletedAt: Option<Time>)

  datatype Participant = Participant(
    id: nat, xid: string, conversationId: nat, userId: nat, role: string, lastReadAt: Option<Time>,
    isMuted: bool, deletedAt: Option<Time>)

  datatype Message = Message(
    id: nat, xid: string, conversationId: nat, senderId: nat, content: string, kind: string,
    deliveredAt: Option<Time>, readAt: Option<Time>, createdAt: Time, deletedAt: Option<Time>)

  datatype Reaction = Reaction(id: nat, messageId: nat, userId: nat, reaction: string)

  datatype Attachment = Attachment(
    id: nat, xid: string, messageId: nat, fileName: string, filePath: string, fileType: string,
    fileSize: int, deletedAt: Option<Time>)

  datatype ChatStore = ChatStore(
    conversations: seq<Conversation>, participants: seq<Participant>, messages: seq<Message>,
    reactions: seq<Reaction>, attachments: seq<Attachment>)

  /** Why an insert is refused. */
  datatype Violation = DuplicateKey | MissingParent

  // ------------------------------------------------------------ column defaults

  /** A conversation inserted with only its keys and creator: a `direct`, unarchived one. */
  function NewConversation(id: nat, xid: string, createdBy: nat): (c: Conversation)
    ensures c.kind == "direct" && !c.isArchived
    ensures c.name.None? && c.description.None? && c.archivedAt.None? && c.deletedAt.None?
  {
    Conversation(id, xid, None, "direct", None, createdBy, false, None, None)
  }

  /** A participant inserted with only its keys: an unmuted `member` who has read nothing. */
  function NewParticipant(id: nat, xid: string, conversationId: nat, userId: nat): (p: Participant)
    ensures p.role == "member" && !p.isMuted && p.lastReadAt.None? && p.deletedAt.None?
  {
    Participant(id, xid, conversationId, userId, "member", None, false, None)
  }

  /** A message inserted with only its keys and content: of type `text`. */
  function NewMessage(id: nat, xid: string, conversationId: nat, senderId: nat, content: string, now: Time)
    : (m: Message)
    ensures m.kind == "text" && m.createdAt == now
    ensures m.deliveredAt.None? && m.readAt.None? && m.deletedAt.None?
  {
    Message(id, xid, conversationId, senderId, content, "text", None, None, now, None)
  }

  // ---------------------------------------------------------------- constraints

  /** Two rows that may coexist under the table's unique indexes. */
  predicate ConversationsDiffer(a: Conversation, b: Conversation) { a.id != b.id && a.xid != b.xid }

  predicate ParticipantsDiffer(a: Participant, b: Participant) {
    a.id != b.id && a.xid != b.xid && (a.conversationId != b.conversationId || a.userId != b.userId)
  }

  predicate MessagesDiffer(a: Message, b: Message) { a.id != b.id && a.xid != b.xid }

  predicate ReactionsDiffer(a: Reaction, b: Reaction) {
    a.id != b.id && (a.messageId != b.messageId || a.userId != b.userId || a.reaction != b.reaction)
  }

  predicate AttachmentsDiffer(a: Attachment, b: Attachment) { a.id != b.id && a.xid != b.xid }

  /** No two rows of `s` clash. */
  ghost predicate Pairwise<T>(s: seq<T>, differ: (T, T) -> bool) {
    forall i, j :: 0 <= i < j < |s| ==> differ(s[i], s[j])
  }

  predicate HasConversation(db: ChatStore, id: nat) {
    exists c :: c in db.conversations && c.id == id
  }

  predicate HasMessage(db: ChatStore, id: nat) {
    exists m :: m in db.messages && m.id == id
  }

  /** Every unique index holds and every foreign key into the chat tables names an existing row. */
  ghost predicate Valid(db: ChatStore) {
    && Pairwise(db.conversations, ConversationsDiffer)
    && Pairwise(db.participants, ParticipantsDiffer)
    && Pairwise(db.messages, MessagesDiffer)
    && Pairwise(db.reactions, ReactionsDiffer)
    && Pairwise(db.attachments, AttachmentsDiffer)
    && (forall p :: p in db.participants ==> HasConversation(db, p.conversationId))
    && (forall m :: m in db.messages ==> HasConversation(db, m.conversationId))
    && (forall r :: r in db.reactions ==> HasMessage(db, r.messageId))
    && (forall a :: a in db.attachments ==> HasMessage(db, a.messageId))
  }

  // -------------------------------------------------------------------- inserts

  function AddConversation(db: ChatStore, c: Conversation): (r: Result<ChatStore, Violation>)
    ensures r.Ok? <==> forall x :: x in db.conversations ==> x.id != c.id && x.xid != c.xid
    ensures r.Ok? ==> r.value == db.(conversations := db.conversations + [c])
    ensures r.Err? ==> r.error == DuplicateKey
    ensures r.Ok? && Valid(db) ==> Valid(r.value)
  {
    if forall x :: x in db.conversations ==> x.id != c.id && x.xid != c.xid then
      var db' := db.(conversations := db.conversations + [c]);
      assert forall x :: x in db.conversations ==> x in db'.conversations;
      Ok(db')
    else Err(DuplicateKey)
  }

  /** Refused when a key is taken, including the same user joining the same conversation twice. */
  function AddParticipant(db: ChatStore, p: Participant): (r: Result<ChatStore, Violation>)
    ensures r.Err? <==>
            (exists x :: x in db.participants &&
                         (x.id == p.id || x.xid == p.xid || (x.conversationId == p.conversationId && x.userId == p.userId)))
            || !HasConversation(db, p.conversationId)
    ensures r.Ok? ==> r.value == db.(participants := db.participants + [p])
    ensures r.Ok? && Valid(db) ==> Valid(r.value)
  {
    if exists x :: x in db.participants &&
                   (x.id == p.id || x.xid == p.xid || (x.conversationId == p.conversationId && x.userId == p.userId))
    then Err(DuplicateKey)
    else if !HasConversation(db, p.conversationId) then Err(MissingParent)
    else
      var db' := db.(participants := db.participants + [p]);
      assert forall i :: 0 <= i < |db.participants| ==> db'.participants[i] == db.participants[i];
      Ok(db')
  }

  function AddMessage(db: ChatStore, m: Message): (r: Result<ChatStore, Violation>)
    ensures r.Err? <==>
            (exists x :: x in db.messages && (x.id == m.id || x.xid == m.xid)) || !HasConversation(db, m.conversationId)
    ensures r.Ok? ==> r.value == db.(messages := db.messages + [m])
    ensures r.Ok? && Valid(db) ==> Valid(r.value)
  {
    if exists x :: x in db.messages && (x.id == m.id || x.xid == m.xid) then Err(DuplicateKey)
    else if !HasConversation(db, m.conversationId) then Err(MissingParent)
    else
      var db' := db.(messages := db.messages + [m]);
      assert forall x :: x in db.messages ==> x in db'.messages;
      Ok(db')
  }

  /** Refused when the same user already gave the same reaction to the same message. */
  function AddReaction(db: ChatStore, x: Reaction): (r: Result<ChatStore, Violation>)
    ensures r.Err? <==>
            (exists y :: y in db.reactions &&
                         (y.id == x.id || (y.messageId == x.messageId && y.userId == x.userId && y.reaction == x.reaction)))
            || !HasMessage(db, x.messageId)
    ensures r.Ok? ==> r.value == db.(reactions := db.reactions + [x])
    ensures r.Ok? && Valid(db) ==> Valid(r.value)
  {
    if exists y :: y in db.reactions &&
                   (y.id == x.id || (y.messageId == x.messageId && y.userId == x.userId && y.reaction == x.reaction))
    then Err(DuplicateKey)
    else if !HasMessage(db, x.messageId) then Err(MissingParent)
    else
      var db' := db.(reactions := db.reactions + [x]);
      assert forall i :: 0 <= i < |db.reactions| ==> db'.reactions[i] == db.reactions[i];
      Ok(db')
  }

  function AddAttachment(db: ChatStore, a: Attachment): (r: Result<ChatStore, Violation>)
    ensures r.Err? <==>
            (exists x :: x in db.attachments && (x.id == a.id || x.xid == a.xid)) || !HasMessage(db, a.messageId)
    ensures r.Ok? ==> r.value == db.(attachments := db.attachments + [a])
    ensures r.Ok? && Valid(db) ==> Valid(r.value)
  {
    if exists x :: x in db.attachments && (x.id == a.id || x.xid == a.xid) then Err(DuplicateKey)
    else if !HasMessage(db, a.messageId) then Err(MissingParent)
    else
      var db' := db.(attachments := db.attachments + [a]);
      assert forall x :: x in db.attachments ==> x in db'.attachments;
      Ok(db')
  }

  // ------------------------------------------------------------------- cascades

  /** The rows of `s` that satisfy `keep`, in order. */
  function Filter<T(!new)>(s: seq<T>, keep: T -> bool): (r: seq<T>)
    ensures |r| <= |s|
    ensures forall x :: x in r <==> x in s && keep(x)
  {
    if s == [] then []
    else
      assert s == [s[0]] + s[1..];
      (if keep(s[0]) then [s[0]] else []) + Filter(s[1..], keep)
  }

  /** Taking away the head keeps a pairwise property, and the head differs from every later row. */
  lemma PairwiseTail<T>(s: seq<T>, differ: (T, T) -> bool)
    requires s != [] && Pairwise(s, differ)
    ensures Pairwise(s[1..], differ)
    ensures forall y :: y in s[1..] ==> differ(s[0], y)
  {
    forall i, j | 0 <= i < j < |s[1..]| ensures differ(s[1..][i], s[1..][j]) {
      assert s[1..][i] == s[i + 1] && s[1..][j] == s[j + 1];
    }
    forall y | y in s[1..] ensures differ(s[0], y) {
      var k :| 0 <= k < |s[1..]| && s[1..][k] == y;
      assert s[k + 1] == y;
    }
  }

  /** A head that differs from every row of a pairwise-distinct tail extends it. */
  lemma PairwiseCons<T>(x: T, t: seq<T>, differ: (T, T) -> bool)
    requires Pairwise(t, differ)
    requires forall y :: y in t ==> differ(x, y)
    ensures Pairwise([x] + t, differ)
  {
    var r := [x] + t;
    forall i, j | 0 <= i < j < |r| ensures differ(r[i], r[j]) {
      assert r[j] == t[j - 1];
      if i > 0 {
        assert r[i] == t[i - 1];
      }
    }
  }

  /** A subsequence keeps a pairwise property of the sequence. */
  lemma {:induction false} FilterKeepsPairs<T(!new)>(s: seq<T>, keep: T -> bool, differ: (T, T) -> bool)
    requires Pairwise(s, differ)
    ensures Pairwise(Filter(s, keep), differ)
  {
    if s != [] {
      PairwiseTail(s, differ);
      FilterKeepsPairs(s[1..], keep, differ);
      var rest := Filter(s[1..], keep);
      if keep(s[0]) {
        PairwiseCons(s[0], rest, differ);
      }
    }
  }

  /** Whether message `mid` is one of conversation `cid`'s. */
  predicate MessageOf(db: ChatStore, mid: nat, cid: nat) {
    exists m :: m in db.messages && m.id == mid && m.conversationId == cid
  }

  /**
   * Deleting a conversation row: its participants and messages go with it,
   * and so do the reactions and attachments of those messages. Every other
   * row stays, in order.
   */
  function DeleteConversation(db: ChatStore, cid: nat): (r: ChatStore)
    ensures forall c :: c in r.conversations <==> c in db.conversations && c.id != cid
    ensures forall p :: p in r.participants <==> p in db.participants && p.conversationId != cid
    ensures forall m :: m in r.messages <==> m in db.messages && m.conversationId != cid
    ensures forall x :: x in r.reactions <==> x in db.reactions && !MessageOf(db, x.messageId, cid)
    ensures forall a :: a in r.attachments <==> a in db.attachments && !MessageOf(db, a.messageId, cid)
  {
    ChatStore(
      Filter(db.conversations, (c: Conversation) => c.id != cid),
      Filter(db.participants, (p: Participant) => p.conversationId != cid),
      Filter(db.messages, (m: Message) => m.conversationId != cid),
      Filter(db.reactions, (x: Reaction) => !MessageOf(db, x.messageId, cid)),
      Filter(db.attachments, (a: Attachment) => !MessageOf(db, a.messageId, cid)))
  }

  /** The cascade leaves no dangling reference and breaks no unique index. */
  lemma DeleteConversationKeepsValid(db: ChatStore, cid: nat)
    requires Valid(db)
    ensures Valid(DeleteConversation(db, cid))
  {
    var r := DeleteConversation(db, cid);
    FilterKeepsPairs(db.conversations, (c: Conversation) => c.id != cid, ConversationsDiffer);
    FilterKeepsPairs(db.participants, (p: Participant) => p.conversationId != cid, ParticipantsDiffer);
    FilterKeepsPairs(db.messages, (m: Message) => m.conversationId != cid, MessagesDiffer);
    FilterKeepsPairs(db.reactions, (x: Reaction) => !MessageOf(db, x.messageId, cid), ReactionsDiffer);
    FilterKeepsPairs(db.attachments, (a: Attachment) => !MessageOf(db, a.messageId, cid), AttachmentsDiffer);
    forall p | p in r.participants ensures HasConversation(r, p.conversationId) {
      var c :| c in db.conversations && c.id == p.conversationId;
    }
    forall m | m in r.messages ensures HasConversation(r, m.conversationId) {
      var c :| c in db.conversations && c.id == m.conversationId;
    }
    forall x | x in r.reactions ensures HasMessage(r, x.messageId) {
      var m :| m in db.messages && m.id == x.messageId;
    }
    forall a | a in r.attachments ensures HasMessage(r, a.messageId) {
      var m :| m in db.messages && m.id == a.messageId;
    }
  }

  /** Deleting a message row: its reactions and attachments go with it; nothing else changes. */
  function DeleteMessage(db: ChatStore, mid: nat): (r: ChatStore)
    ensures r.conversations == db.conversations && r.participants == db.participants
    ensures forall m :: m in r.messages <==> m in db.messages && m.id != mid
    ensures forall x :: x in r.reactions <==> x in db.reactions && x.messageId != mid
    ensures forall a :: a in r.attachments <==> a in db.attachments && a.messageId != mid
  {
    db.(messages := Filter(db.messages, (m: Message) => m.id != mid),
        reactions := Filter(db.reactions, (x: Reaction) => x.messageId != mid),
        attachments := Filter(db.attachments, (a: Attachment) => a.messageId != mid))
  }

  lemma DeleteMessageKeepsValid(db: ChatStore, mid: nat)
    requires Valid(db)
    ensures Valid(DeleteMessage(db, mid))
  {
    var r := DeleteMessage(db, mid);
    FilterKeepsPairs(db.messages, (m: Message) => m.id != mid, MessagesDiffer);
    FilterKeepsPairs(db.reactions, (x: Reaction) => x.messageId != mid, ReactionsDiffer);
    FilterKeepsPairs(db.attachments, (a: Attachment) => a.messageId != mid, AttachmentsDiffer);
    forall p | p in r.participants ensures HasConversation(r, p.conversationId) {
    }
    forall x | x in r.reactions ensures HasMessage(r, x.messageId) {
      var m :| m in db.messages && m.id == x.messageId;
    }
    forall a | a in r.attachments ensures HasMessage(r, a.messageId) {
      var m :| m in db.messages && m.id == a.messageId;
    }
  }

  /** `$message->delete()` with soft deletes: the row stays, stamped; nothing cascades. */
  function SoftDeleteMessage(db: ChatStore, mid: nat, now: Time): (r: ChatStore)
    ensures |r.messages| == |db.messages|
    ensures forall k :: 0 <= k < |db.messages| ==>
              r.messages[k] == if db.messages[k].id == mid then db.messages[k].(deletedAt := Some(now)) else db.messages[k]
    ensures r.(messages := db.messages) == db
  {
    var ms := seq(|db.messages|, k requires 0 <= k < |db.messages| =>
                    if db.messages[k].id == mid then db.messages[k].(deletedAt := Some(now)) else db.messages[k]);
    db.(messages := ms)
  }

  /** Stamping a message keeps every key and reference of the chat tables. */
  lemma SoftDeleteKeepsValid(db: ChatStore, mid: nat, now: Time)
    requires Valid(db)
    ensures Valid(SoftDeleteMessage(db, mid, now))
  {
    var r := SoftDeleteMessage(db, mid, now);
    assert forall k :: 0 <= k < |r.messages| ==>
             r.messages[k].id == db.messages[k].id && r.messages[k].xid == db.messages[k].xid
             && r.messages[k].conversationId == db.messages[k].conversationId;
    forall x | x in r.reactions ensures HasMessage(r, x.messageId) {
      var k :| 0 <= k < |db.messages| && db.messages[k].id == x.messageId;
      assert r.messages[k].id == x.messageId;
    }
    forall a | a in r.attachments ensures HasMessage(r, a.messageId) {
      var k :| 0 <= k < |db.messages| && db.messages[k].id == a.messageId;
      assert r.messages[k].id == a.messageId;
    }
    forall m | m in r.messages ensures HasConversation(r, m.conversationId) {
      var k :| 0 <= k < |r.messages| && r.messages[k] == m;
      assert db.messages[k] in db.messages;
    }
  }

  // ----------------------------------------------------------------- unread rule

  /** `last_read_at ?? '1970-01-01'`: a participant who never read counts from the epoch. */
  function ReadMark(p: Participant): Time {
    p.lastReadAt.GetOr(0)
  }

  /** Whether a message counts as unread for the participant. */
  predicate IsUnread(p: Participant, m: Message) {
    && m.conversationId == p.conversationId
    && m.deletedAt.None?
    && m.createdAt > ReadMark(p)
    && m.senderId != p.userId
  }

  /** Whether `$this->conversation` loads: the row exists and is not soft-deleted. */
  predicate ConversationVisible(db: ChatStore, cid: nat) {
    exists c :: c in db.conversations && c.id == cid && c.deletedAt.None?
  }

  /**
   * `unreadMessages`: the messages of the participant's own conversation
   * that are not soft-deleted, are strictly newer than the read mark and
   * were sent by someone else. `None` when the conversation does not load
   * (then `messages()` is called on `null`).
   */
  function UnreadMessages(db: ChatStore, p: Participant): (r: Option<seq<Message>>)
    ensures r.Some? <==> ConversationVisible(db, p.conversationId)
    ensures r.Some? ==> forall m :: m in r.value <==> m in db.messages && IsUnread(p, m)
  {
    if ConversationVisible(db, p.conversationId) then Some(Filter(db.messages, (m: Message) => IsUnread(p, m)))
    else None
  }

  /** A participant's own messages are never unread for them. */
  lemma OwnMessagesNeverUnread(db: ChatStore, p: Participant, m: Message)
    requires UnreadMessages(db, p).Some? && m.senderId == p.userId
    ensures m !in UnreadMessages(db, p).value
  {
  }

  /** Moving the read mark forward can only shrink the unread set. */
  lemma ReadingShrinksUnread(db: ChatStore, p: Participant, later: Time)
    requires UnreadMessages(db, p).Some? && ReadMark(p) <= later
    ensures var q := p.(lastReadAt := Some(later));
            forall m :: m in UnreadMessages(db, q).value ==> m in UnreadMessages(db, p).value
  {
  }

  /** A message sent by someone else and never read about is unread exactly while it is not soft-deleted. */
  lemma NeverReadSeesAll(db: ChatStore, p: Participant, m: Message)
    requires UnreadMessages(db, p).Some? && p.lastReadAt.None?
    requires m in db.messages && m.conversationId == p.conversationId && m.senderId != p.userId
    requires m.createdAt > 0
    ensures m in UnreadMessages(db, p).value <==> m.deletedAt.None?
  {
  }
}
