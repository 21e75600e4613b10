/** The bus: one input queue that everybody sends to, and a dispatcher that copies each message to the
    channel of every connector. */
module Buses {

  /** A message and who sent it. */
  datatype Sent<T> = Sent(author: nat, message: T)

  function Messages<T>(sent: seq<Sent<T>>): (ms: seq<T>)
    ensures |ms| == |sent|
  {
    if sent == [] then [] else Messages(sent[..|sent| - 1]) + [sent[|sent| - 1].message]
  }

  /** What one author sent, in the order it was sent. */
  function PublishedBy<T>(sent: seq<Sent<T>>, author: nat): seq<T> {
    if sent == [] then []
    else
      var last := sent[|sent| - 1];
      PublishedBy(sent[..|sent| - 1], author) + if last.author == author then [last.message] else []
  }

  /** An unbounded queue with a sending and a receiving end. */
  class Channel<T> {
    var queue: seq<T>
    var connected: bool
    /** What was taken out, and how much the bus had dispatched when this channel was joined to it. */
    ghost var consumed: seq<T>
    ghost var joinedAt: nat

    constructor (ghost joinedAt: nat)
      ensures queue == [] && connected && consumed == [] && this.joinedAt == joinedAt
    {
      queue, connected, consumed, this.joinedAt := [], true, [], joinedAt;
    }

    /** Fails exactly when the receiving end is gone. */
    method Send(message: T) returns (ok: bool)
      modifies `queue
      ensures ok == connected
      ensures queue == old(queue) + if ok then [message] else []
    {
      ok := connected;
      if ok {
        queue := queue + [message];
      } else {
        assert queue == queue + [];
      }
    }

    /** Takes the first `count` messages; `TryIter` of what has arrived takes them all. */
    method Receive(count: nat) returns (messages: seq<T>)
      requires count <= |queue|
      modifies `queue, `consumed
      ensures messages == old(queue)[..count]
      ensures queue == old(queue)[count..] && consumed == old(consumed) + messages
    {
      messages := queue[..count];
      queue := queue[count..];
      consumed := consumed + messages;
    }

    /** The connector goes away. */
    method Drop()
      modifies `connected
      ensures !connected
    {
      connected := false;
    }
  }

  class Bus<T> {
    var input: seq<T>
    var senders: seq<Channel<T>>
    /** Every message dispatched so far, and every message sent so far. */
    ghost var log: seq<T>
    ghost var sent: seq<Sent<T>>

    /** A connected channel has received, and holds, exactly what was dispatched since it joined. */
    ghost predicate Delivered(c: Channel<T>)
      reads this, c
    {
      c.joinedAt <= |log| && (c.connected ==> c.consumed + c.queue == log[c.joinedAt..])
    }

    ghost predicate Valid()
      reads this, senders
    {
      && (forall i, j :: 0 <= i < j < |senders| ==> senders[i] != senders[j])
      && Messages(sent) == log + input
      && (forall c :: c in senders ==> Delivered(c))
    }

    constructor ()
      ensures Valid() && input == [] && senders == [] && log == [] && sent == []
    {
      input, senders, log, sent := [], [], [], [];
    }

    /** A new connector sees everything dispatched from now on. */
    method JoinBus() returns (c: Channel<T>)
      requires Valid()
      modifies `senders
      ensures Valid() && fresh(c) && senders == old(senders) + [c]
      ensures c.connected && c.joinedAt == |log| && c.consumed == [] && c.queue == []
    {
      c := new Channel(|log|);
      senders := senders + [c];
      assert log[|log|..] == [];
    }

    /** Sending is one append to the shared input, so the order of sending is the order of everything. */
    method SendEvent(author: nat, message: T)
      requires Valid()
      modifies `input, `sent
      ensures Valid() && input == old(input) + [message] && sent == old(sent) + [Sent(author, message)]
      ensures forall a :: PublishedBy(sent, a) == PublishedBy(old(sent), a) + if a == author then [message] else []
    {
      input := input + [message];
      ghost var before := sent;
      sent := sent + [Sent(author, message)];
      assert sent[..|sent| - 1] == before;
    }

    /** Copies the message to the channels still connected, and tells which these are. */
    method Retain(message: T) returns (kept: seq<Channel<T>>)
      requires forall i, j :: 0 <= i < j < |senders| ==> senders[i] != senders[j]
      modifies senders
      ensures forall a, b :: 0 <= a < b < |kept| ==> kept[a] != kept[b]
      ensures forall c :: c in kept <==> c in senders && c.connected
      ensures forall c :: c in senders ==>
          && c.connected == old(c.connected) && c.consumed == old(c.consumed) && c.joinedAt == old(c.joinedAt)
          && c.queue == old(c.queue) + if c.connected then [message] else []
    {
      kept := [];
      var i := 0;
      while i < |senders|
        invariant 0 <= i <= |senders|
        invariant forall k :: 0 <= k < |senders| ==>
          senders[k].connected == old(senders[k].connected) && senders[k].consumed == old(senders[k].consumed)
              && senders[k].joinedAt == old(senders[k].joinedAt)
        invariant forall a, b :: 0 <= a < b < |kept| ==> kept[a] != kept[b]
        invariant forall c :: c in kept <==> c in senders[..i] && c.connected
        invariant forall k :: 0 <= k < i ==>
            senders[k].queue == old(senders[k].queue) + if senders[k].connected then [message] else []
        invariant forall k :: i <= k < |senders| ==> senders[k].queue == old(senders[k].queue)
      {
        var ok := senders[i].Send(message);
        assert senders[..i + 1] == senders[..i] + [senders[i]];
        if ok {
          kept := kept + [senders[i]];
        }
        i := i + 1;
      }
      assert senders[..|senders|] == senders;
    }

    /** Takes one message from the input, copies it to the channels still connected and forgets the others. */
    method DispatchOne()
      requires Valid() && input != []
      modifies `input, `senders, `log, senders
      ensures Valid()
      ensures input == old(input)[1..] && log == old(log) + [old(input)[0]]
      ensures forall c :: c in old(senders) ==> (c in senders <==> c.connected)
      ensures forall i :: 0 <= i < |senders| ==> senders[i] in old(senders)
      ensures forall c :: c in old(senders) ==>
          c.connected == old(c.connected) && c.consumed == old(c.consumed) && c.joinedAt == old(c.joinedAt)
    {
      hide Messages;
      var message := input[0];
      input := input[1..];
      var kept := Retain(message);
      senders := kept;
      log := log + [message];
      forall c | c in senders ensures Delivered(c) {
        assert old(Delivered(c)) && old(c.connected);
        assert log[c.joinedAt..] == old(log)[c.joinedAt..] + [message];
      }
    }

    /** The dispatching loop: it ends when nothing is left in the input, nobody being left to send. */
    method Dispatch()
      requires Valid()
      modifies `input, `senders, `log, senders
      ensures Valid() && input == [] && log == old(log) + old(input)
      ensures Messages(sent) == log
      ensures forall c :: c in old(senders) ==>
          c.connected == old(c.connected) && c.consumed == old(c.consumed) && c.joinedAt == old(c.joinedAt)
      ensures forall c :: c in old(senders) && c.connected ==> c.consumed + c.queue == log[c.joinedAt..]
    {
      while input != []
        invariant Valid() && log + input == old(log) + old(input) && sent == old(sent)
        invariant forall i :: 0 <= i < |senders| ==> senders[i] in old(senders)
        invariant forall c :: c in old(senders) && c.connected ==> c in senders
        invariant forall c :: c in old(senders) ==>
            c.connected == old(c.connected) && c.consumed == old(c.consumed) && c.joinedAt == old(c.joinedAt)
        decreases |input|
      {
        DispatchOne();
      }
      assert log + [] == log;
      forall c | c in old(senders) && c.connected ensures c.consumed + c.queue == log[c.joinedAt..] {
        assert Delivered(c);
      }
    }

    /** A connector takes what has arrived: it has then consumed all that was dispatched since it joined. */
    method TryGetEvents(c: Channel<T>) returns (messages: seq<T>)
      requires Valid() && c in senders && c.connected
      modifies c
      ensures Valid() && c.connected
      ensures messages == old(c.queue) && c.consumed == old(c.consumed) + messages && c.consumed == log[c.joinedAt..]
    {
      messages := c.Receive(|c.queue|);
    }

    /** A connector that goes away disturbs nobody else. */
    method DropConnector(c: Channel<T>)
      requires Valid() && c in senders
      modifies c`connected
      ensures Valid() && !c.connected
    {
      c.Drop();
    }

    /** What a connector has consumed and still holds, restricted to one author, is exactly what that author
        published between the point where the connector joined and the end of what has been dispatched. */
    lemma ConnectorHearsAuthor(c: Channel<T>, author: nat)
      requires Valid() && c in senders && c.connected
      ensures c.joinedAt <= |log| <= |sent| && |c.consumed + c.queue| == |log| - c.joinedAt
      ensures PublishedBy(sent[..|log|], author)
        == PublishedBy(sent[..c.joinedAt], author) + FromAuthor(c.consumed + c.queue, sent[c.joinedAt..|log|], author)
    {
      hide Messages, PublishedBy, FromAuthor;
      assert Delivered(c);
      var j, k := c.joinedAt, |log|;
      assert |log + input| == |sent| && (log + input)[j..k] == log[j..];
      HeardIsPublished(sent, j, k, c.consumed + c.queue, author);
    }
  }

  /** Those of the messages that `author` sent, as the record of their sending tells. */
  function FromAuthor<T>(messages: seq<T>, record: seq<Sent<T>>, author: nat): seq<T>
    requires |messages| == |record|
  {
    if messages == [] then []
    else
      var k := |messages| - 1;
      FromAuthor(messages[..k], record[..k], author) + if record[k].author == author then [messages[k]] else []
  }

  lemma {:induction false} MessagesConcat<T>(p: seq<Sent<T>>, q: seq<Sent<T>>)
    ensures Messages(p + q) == Messages(p) + Messages(q)
  {
    if q == [] {
      assert p + q == p;
    } else {
      assert (p + q)[..|p + q| - 1] == p + q[..|q| - 1];
      MessagesConcat(p, q[..|q| - 1]);
    }
  }

  lemma Middle<T>(p: seq<T>, q: seq<T>, r: seq<T>)
    ensures (p + q + r)[|p|..|p| + |q|] == q
  {
  }

  lemma MessagesInThree<T>(p: seq<Sent<T>>, q: seq<Sent<T>>, r: seq<Sent<T>>)
    ensures Messages(p + q + r)[|p|..|p| + |q|] == Messages(q)
  {
    hide Messages;
    MessagesConcat(p + q, r);
    MessagesConcat(p, q);
    Middle(Messages(p), Messages(q), Messages(r));
  }

  lemma MessagesSlice<T>(sent: seq<Sent<T>>, i: nat, j: nat)
    requires i <= j <= |sent|
    ensures Messages(sent[i..j]) == Messages(sent)[i..j]
  {
    hide Messages;
    MessagesInThree(sent[..i], sent[i..j], sent[j..]);
    assert sent == sent[..i] + sent[i..j] + sent[j..];
  }

  lemma {:induction false} AuthorOfMessages<T>(record: seq<Sent<T>>, author: nat)
    ensures FromAuthor(Messages(record), record, author) == PublishedBy(record, author)
  {
    if record != [] {
      var k := |record| - 1;
      assert Messages(record)[..k] == Messages(record[..k]);
      AuthorOfMessages(record[..k], author);
    }
  }

  lemma {:induction false} PublishedConcat<T>(p: seq<Sent<T>>, q: seq<Sent<T>>, author: nat)
    ensures PublishedBy(p + q, author) == PublishedBy(p, author) + PublishedBy(q, author)
  {
    if q == [] {
      assert p + q == p;
    } else {
      assert (p + q)[..|p + q| - 1] == p + q[..|q| - 1];
      PublishedConcat(p, q[..|q| - 1], author);
    }
  }

  lemma HeardIsPublished<T>(sent: seq<Sent<T>>, j: nat, k: nat, heard: seq<T>, author: nat)
    requires j <= k <= |sent| && heard == Messages(sent)[j..k]
    ensures |heard| == k - j
    ensures PublishedBy(sent[..k], author)
      == PublishedBy(sent[..j], author) + FromAuthor(heard, sent[j..k], author)
  {
    hide Messages, PublishedBy, FromAuthor;
    var segment := sent[j..k];
    MessagesSlice(sent, j, k);
    AuthorOfMessages(segment, author);
    PublishedConcat(sent[..j], segment, author);
    assert sent[..j] + segment == sent[..k];
  }
}
