/** The transcript held by the socket provider: an append-only sequence of
    messages, seeded with a welcome message. Every update is a functional
    append of one new entry. */
module Transcript {
  import opened Messages

  const WelcomeText: string := "Hey, welcome!"
  const ServerName: string := "Server"

  /** `after` keeps every entry of `before`, in place and in order. */
  predicate Extends(before: seq<Message>, after: seq<Message>)
  {
    |before| <= |after| && after[..|before|] == before
  }

  /** The transcript a freshly mounted provider starts with. */
  function Seed(now: Timestamp): (t: seq<Message>)
    ensures |t| == 1
    ensures t[0].id == 1 && t[0].text == WelcomeText && t[0].userName == ServerName
    ensures !t[0].sent && t[0].timestamp == now
  {
    [Message(1, WelcomeText, ServerName, false, now)]
  }

  /** The message `sendMessage` builds from the text the user typed. */
  function Authored(prev: seq<Message>, text: string, userName: string, now: Timestamp): (m: Message)
    ensures m.id == |prev| + 1
    ensures m.text == text && m.userName == userName && m.timestamp == now
    ensures m.sent
  {
    Message(|prev| + 1, text, userName, true, now)
  }

  /** The local append of `sendMessage`. */
  function AppendLocal(prev: seq<Message>, text: string, userName: string, now: Timestamp): (t: seq<Message>)
    ensures |t| == |prev| + 1 && Extends(prev, t)
    ensures t[|prev|] == Authored(prev, text, userName, now)
    ensures t[|prev|].id == |t|
  {
    prev + [Authored(prev, text, userName, now)]
  }

  /** A received message as the receiver stores it: every field is the
      sender's except `sent`, which is forced to false. */
  function Normalize(m: Message): (r: Message)
    ensures !r.sent
    ensures r.(sent := m.sent) == m
  {
    m.(sent := false)
  }

  /** The append of `onMessageReceived`. */
  function AppendRemote(prev: seq<Message>, m: Message): (t: seq<Message>)
    ensures |t| == |prev| + 1 && Extends(prev, t)
    ensures t[|prev|] == Normalize(m)
    ensures !t[|prev|].sent
    ensures t[|prev|].id == m.id && t[|prev|].text == m.text
    ensures t[|prev|].userName == m.userName && t[|prev|].timestamp == m.timestamp
  {
    prev + [Normalize(m)]
  }

  /** The stored entry does not depend on the `sent` flag that came over the
      wire. */
  lemma ReceiveIgnoresWireSent(prev: seq<Message>, m: Message, wireSent: bool)
    ensures AppendRemote(prev, m.(sent := wireSent)) == AppendRemote(prev, m)
  {
  }

  /** One transcript update, as the event loop dispatches it. */
  datatype Update =
    | Local(text: string, userName: string, now: Timestamp)
    | Remote(message: Message)

  function Apply(t: seq<Message>, u: Update): (r: seq<Message>)
    ensures |r| == |t| + 1 && Extends(t, r)
  {
    match u
    case Local(text, userName, now) => AppendLocal(t, text, userName, now)
    case Remote(m) => AppendRemote(t, m)
  }

  /** The transcript after a run of updates, applied in dispatch order. */
  function ApplyAll(t: seq<Message>, us: seq<Update>): (r: seq<Message>)
    ensures |r| == |t| + |us|
    decreases |us|
  {
    if us == [] then t else ApplyAll(Apply(t, us[0]), us[1..])
  }

  lemma ExtendsTransitive(a: seq<Message>, b: seq<Message>, c: seq<Message>)
    requires Extends(a, b) && Extends(b, c)
    ensures Extends(a, c)
  {
  }

  /** Whatever mix of local sends and receptions happens, the transcript
      never loses, rewrites or reorders an earlier entry. */
  lemma {:induction false} ApplyAllAppendOnly(t: seq<Message>, us: seq<Update>)
    ensures Extends(t, ApplyAll(t, us))
    decreases |us|
  {
    if us != [] {
      var t1 := Apply(t, us[0]);
      ApplyAllAppendOnly(t1, us[1..]);
      ExtendsTransitive(t, t1, ApplyAll(t1, us[1..]));
    }
  }

  /** Entry `|t| + k` of the result is the entry the `k`-th update
      appended: the transcript order is the dispatch order. */
  lemma {:induction false} ApplyAllOrder(t: seq<Message>, us: seq<Update>, k: nat)
    requires k < |us|
    ensures ApplyAll(t, us)[|t| + k] == Apply(ApplyAll(t, us[..k]), us[k])[|t| + k]
    decreases |us|
  {
    ApplyAllAppendOnly(t, us);
    var t1 := Apply(t, us[0]);
    if k == 0 {
      ApplyAllAppendOnly(t1, us[1..]);
      assert ApplyAll(t, us[..0]) == t;
    } else {
      ApplyAllOrder(t1, us[1..], k - 1);
      assert us[1..][..k - 1] == us[..k][1..];
      assert us[1..][k - 1] == us[k];
      assert us[..k][0] == us[0];
      assert ApplyAll(t, us[..k]) == ApplyAll(t1, us[1..][..k - 1]);
      assert ApplyAll(t, us) == ApplyAll(t1, us[1..]);
    }
  }

  /** Ids are not unique: a peer's message keeps the peer's id, which can
      equal the id of an entry already present (here the welcome message). */
  lemma IdsCanCollide(now: Timestamp, peer: Message)
    requires peer.id == 1
    ensures AppendRemote(Seed(now), peer)[0].id == AppendRemote(Seed(now), peer)[1].id
  {
  }

  /** End to end: the first message client A sends, relayed to client B,
      lands in B's transcript right after B's welcome message with every
      field of A's message except `sent`, which B sees as false. Its id is
      2, because A's welcome message already holds id 1. */
  lemma FirstSendSeenByPeer(seedA: Timestamp, seedB: Timestamp, text: string, author: string, now: Timestamp)
    ensures var a := AppendLocal(Seed(seedA), text, author, now);
            AppendRemote(Seed(seedB), a[1]) == Seed(seedB) + [Message(2, text, author, false, now)]
  {
  }
}
