/** Trimming the chat history of an oversized request body. Messages are opaque but for their role and
    the size of their serialization; parsing a serialized body gives the body back. */
module Compaction {

  datatype Message = Message(role: string, size: nat, content: string) {
    predicate IsSystem() { role == "system" }
  }

  /** envelope is the serialized size of everything but the message list. */
  datatype Doc =
    | NotJson
    | NoMessages
    | MessagesNotList
    | Chat(envelope: nat, messages: seq<Message>)

  /** A request body as received: its length in bytes and what it parses to. */
  datatype Body = Body(length: nat, doc: Doc)

  function Sizes(messages: seq<Message>): nat {
    if messages == [] then 0 else messages[0].size + Sizes(messages[1..])
  }

  /** Brackets, messages and the commas between them. */
  function ListSize(messages: seq<Message>): nat {
    2 + Sizes(messages) + if messages == [] then 0 else |messages| - 1
  }

  function Serialize(envelope: nat, messages: seq<Message>): Body {
    Body(envelope + ListSize(messages), Chat(envelope, messages))
  }

  /** The messages that are system messages, or those that are not, in order. */
  function WithRole(messages: seq<Message>, system: bool): seq<Message> {
    if messages == [] then []
    else (if messages[0].IsSystem() == system then [messages[0]] else []) + WithRole(messages[1..], system)
  }

  function Systems(messages: seq<Message>): seq<Message> { WithRole(messages, true) }

  function Others(messages: seq<Message>): seq<Message> { WithRole(messages, false) }

  /** All system messages and the newest keep others. */
  function Kept(system: seq<Message>, others: seq<Message>, keep: nat): seq<Message>
    requires keep <= |others|
  {
    system + others[|others| - keep..]
  }

  function MinKeep(others: seq<Message>): nat { if |others| > 0 then 1 else 0 }

  predicate Fits(envelope: nat, system: seq<Message>, others: seq<Message>, keep: nat, maxBody: int)
    requires keep <= |others|
  {
    Serialize(envelope, Kept(system, others, keep)).length <= maxBody
  }

  /** The first count from keep downwards that fits, or the minimum. */
  function KeepFrom(envelope: nat, system: seq<Message>, others: seq<Message>, keep: nat, maxBody: int): (k: nat)
    requires MinKeep(others) <= keep <= |others|
    ensures MinKeep(others) <= k <= keep
  {
    if keep == MinKeep(others) || Fits(envelope, system, others, keep, maxBody) then keep
    else KeepFrom(envelope, system, others, keep - 1, maxBody)
  }

  predicate Untouched(body: Body, maxBody: int) {
    maxBody <= 0 || body.length <= maxBody || !body.doc.Chat? || body.doc.messages == []
  }

  function Compact(body: Body, maxBody: int): Body {
    if Untouched(body, maxBody) then body
    else
      var system, others := Systems(body.doc.messages), Others(body.doc.messages);
      var keep := KeepFrom(body.doc.envelope, system, others, |others|, maxBody);
      Serialize(body.doc.envelope, Kept(system, others, keep))
  }

  method SplitByRole(messages: seq<Message>) returns (system: seq<Message>, others: seq<Message>)
    ensures system == Systems(messages) && others == Others(messages)
  {
    system, others := [], [];
    for i := 0 to |messages|
      invariant system + WithRole(messages[i..], true) == Systems(messages)
      invariant others + WithRole(messages[i..], false) == Others(messages)
    {
      NextMessage(messages, i, true);
      NextMessage(messages, i, false);
      if messages[i].IsSystem() { system := system + [messages[i]]; } else { others := others + [messages[i]]; }
    }
    assert messages[|messages|..] == [];
    assert system + [] == system && others + [] == others;
  }

  lemma NextMessage(messages: seq<Message>, i: nat, system: bool)
    requires i < |messages|
    ensures WithRole(messages[i..], system) ==
      (if messages[i].IsSystem() == system then [messages[i]] else []) + WithRole(messages[i + 1..], system)
  {
    assert messages[i..][1..] == messages[i + 1..];
  }

  /** From all other messages downwards, the first body that fits, or the minimal one. */
  method LongestThatFits(envelope: nat, system: seq<Message>, others: seq<Message>, maxBody: int)
    returns (out: Body)
    ensures out == Serialize(envelope, Kept(system, others, KeepFrom(envelope, system, others, |others|, maxBody)))
  {
    var minKeep := if |others| > 0 then 1 else 0;
    var keep := |others|;
    while keep >= minKeep
      invariant minKeep - 1 <= keep <= |others|
      invariant keep >= minKeep ==>
        KeepFrom(envelope, system, others, keep, maxBody) == KeepFrom(envelope, system, others, |others|, maxBody)
      invariant keep < minKeep ==> KeepFrom(envelope, system, others, |others|, maxBody) == minKeep
    {
      out := Serialize(envelope, Kept(system, others, keep));
      if out.length <= maxBody { return; }
      keep := keep - 1;
    }
    out := Serialize(envelope, Kept(system, others, minKeep));
  }

  method CompactMessagesToBudget(body: Body, maxBody: int) returns (out: Body)
    ensures out == Compact(body, maxBody)
    ensures Forwards(body, maxBody, out)
  {
    CompactionIsOptimal(body, maxBody);
    if maxBody <= 0 || body.length <= maxBody { return body; }
    if !body.doc.Chat? || |body.doc.messages| == 0 { return body; }
    var system, others := SplitByRole(body.doc.messages);
    out := LongestThatFits(body.doc.envelope, system, others, maxBody);
  }

  // ----- what compaction achieves

  lemma {:induction false} KeepFromIsLongest(
    envelope: nat, system: seq<Message>, others: seq<Message>, keep: nat, maxBody: int)
    requires MinKeep(others) <= keep <= |others|
    ensures
      var k := KeepFrom(envelope, system, others, keep, maxBody);
      && MinKeep(others) <= k <= keep
      && (forall j :: k < j <= keep ==> !Fits(envelope, system, others, j, maxBody))
      && (k > MinKeep(others) ==> Fits(envelope, system, others, k, maxBody))
    decreases keep
  {
    if keep > MinKeep(others) && !Fits(envelope, system, others, keep, maxBody) {
      KeepFromIsLongest(envelope, system, others, keep - 1, maxBody);
    }
  }

  lemma {:induction false} SizesAppend(a: seq<Message>, b: seq<Message>)
    ensures Sizes(a + b) == Sizes(a) + Sizes(b)
  {
    if a == [] { assert a + b == b; } else {
      assert (a + b)[1..] == a[1..] + b;
      SizesAppend(a[1..], b);
    }
  }

  /** Keeping fewer messages never makes the body longer. */
  lemma FewerIsShorter(envelope: nat, system: seq<Message>, others: seq<Message>, j: nat, k: nat, maxBody: int)
    requires j <= k <= |others| && Fits(envelope, system, others, k, maxBody)
    ensures Fits(envelope, system, others, j, maxBody)
  {
    var dropped := others[|others| - k..|others| - j];
    var kept := others[|others| - j..];
    assert others[|others| - k..] == dropped + kept;
    SizesAppend(system, dropped + kept);
    SizesAppend(dropped, kept);
    SizesAppend(system, kept);
  }

  /** A chat of all system messages, in order, and the k newest of the others. */
  ghost function WithNewest(envelope: nat, messages: seq<Message>, k: nat): Body
    requires k <= |Others(messages)|
  {
    Serialize(envelope, Systems(messages) + Others(messages)[|Others(messages)| - k..])
  }

  /** out is the chat with the keep newest others, keep being the largest number that fits and at least one
      where there is one; and it fits if and only if that minimum would. */
  ghost predicate IsOptimal(envelope: nat, messages: seq<Message>, maxBody: int, out: Body, keep: nat) {
    var n := |Others(messages)|;
    var least := if n == 0 then 0 else 1;
    && least <= keep <= n
    && out == WithNewest(envelope, messages, keep)
    && (forall j: nat :: least <= j <= n && WithNewest(envelope, messages, j).length <= maxBody ==> j <= keep)
    && (out.length <= maxBody <==> WithNewest(envelope, messages, least).length <= maxBody)
  }

  /** What is forwarded for a body: the body itself if it is within a positive budget, if there is no such budget,
      or if it is no chat with messages; and else the optimal compaction. */
  ghost predicate Forwards(body: Body, maxBody: int, out: Body) {
    if maxBody <= 0 || body.length <= maxBody || !body.doc.Chat? || body.doc.messages == [] then out == body
    else exists keep :: IsOptimal(body.doc.envelope, body.doc.messages, maxBody, out, keep)
  }

  lemma CompactionIsOptimal(body: Body, maxBody: int)
    ensures Forwards(body, maxBody, Compact(body, maxBody))
  {
    if maxBody > 0 && body.length > maxBody && body.doc.Chat? && body.doc.messages != [] {
      var envelope, messages := body.doc.envelope, body.doc.messages;
      var keep := KeepFrom(envelope, Systems(messages), Others(messages), |Others(messages)|, maxBody);
      LongestIsOptimal(envelope, messages, maxBody);
      assert IsOptimal(envelope, messages, maxBody, Compact(body, maxBody), keep);
    }
  }

  lemma LongestIsOptimal(envelope: nat, messages: seq<Message>, maxBody: int)
    ensures
      var keep := KeepFrom(envelope, Systems(messages), Others(messages), |Others(messages)|, maxBody);
      IsOptimal(envelope, messages, maxBody, WithNewest(envelope, messages, keep), keep)
  {
    var system, others := Systems(messages), Others(messages);
    var keep := KeepFrom(envelope, system, others, |others|, maxBody);
    KeepFromIsLongest(envelope, system, others, |others|, maxBody);
    forall j: nat | j <= |others|
      ensures Fits(envelope, system, others, j, maxBody) <==> WithNewest(envelope, messages, j).length <= maxBody
    {}
    if Fits(envelope, system, others, keep, maxBody) {
      FewerIsShorter(envelope, system, others, MinKeep(others), keep, maxBody);
    }
  }

  /** The size of a body: two brackets for the list, and each message with a comma before all but the first. */
  lemma SerializedSize(envelope: nat, messages: seq<Message>, m: Message)
    ensures Serialize(envelope, []).length == envelope + 2
    ensures Serialize(envelope, messages + [m]).length ==
      Serialize(envelope, messages).length + m.size + if messages == [] then 0 else 1
    ensures Serialize(envelope, messages).doc == Chat(envelope, messages)
  {
    SizesAppend(messages, [m]);
    assert Sizes([m]) == m.size + Sizes([m][1..]);
  }

  function MessageCount(doc: Doc): nat { if doc.Chat? then |doc.messages| else 0 }

  /** Telling messages apart by role loses none and mixes none up. */
  lemma {:induction false} Partition(messages: seq<Message>)
    ensures multiset(Systems(messages)) + multiset(Others(messages)) == multiset(messages)
    ensures forall m :: m in Systems(messages) ==> m.role == "system"
    ensures forall m :: m in Others(messages) ==> m.role != "system"
  {
    if messages != [] {
      Partition(messages[1..]);
      assert messages == [messages[0]] + messages[1..];
    }
  }

  lemma {:induction false} PartitionSizes(messages: seq<Message>)
    ensures |Systems(messages)| + |Others(messages)| == |messages|
  {
    if messages != [] { PartitionSizes(messages[1..]); }
  }

  /** A larger positive budget never keeps fewer messages. */
  lemma LargerBudgetKeepsMore(body: Body, small: int, large: int)
    requires 0 < small <= large
    ensures MessageCount(Compact(body, small).doc) <= MessageCount(Compact(body, large).doc)
  {
    if !Untouched(body, small) {
      var envelope, system, others := body.doc.envelope, Systems(body.doc.messages), Others(body.doc.messages);
      PartitionSizes(body.doc.messages);
      KeepFromIsLongest(envelope, system, others, |others|, small);
      if !Untouched(body, large) {
        KeepFromIsLongest(envelope, system, others, |others|, large);
        var k := KeepFrom(envelope, system, others, |others|, small);
        assert k > MinKeep(others) ==> Fits(envelope, system, others, k, large);
      }
    }
  }

  lemma {:induction false} WithRoleAppend(a: seq<Message>, b: seq<Message>, system: bool)
    ensures WithRole(a + b, system) == WithRole(a, system) + WithRole(b, system)
  {
    if a == [] { assert a + b == b; } else {
      assert (a + b)[1..] == a[1..] + b;
      WithRoleAppend(a[1..], b, system);
    }
  }

  lemma {:induction false} WithRoleOfUniform(messages: seq<Message>, system: bool)
    requires forall m :: m in messages ==> m.IsSystem() == system
    ensures WithRole(messages, system) == messages
    ensures WithRole(messages, !system) == []
  {
    if messages != [] { WithRoleOfUniform(messages[1..], system); }
  }

  lemma JoinSplits(system: seq<Message>, rest: seq<Message>)
    requires (forall m :: m in system ==> m.IsSystem()) && (forall m :: m in rest ==> !m.IsSystem())
    ensures Systems(system + rest) == system && Others(system + rest) == rest
  {
    WithRoleOfUniform(system, true);
    WithRoleOfUniform(rest, false);
    WithRoleAppend(system, rest, true);
    WithRoleAppend(system, rest, false);
  }

  lemma KeptSplits(messages: seq<Message>, keep: nat)
    requires keep <= |Others(messages)|
    ensures
      var kept := Kept(Systems(messages), Others(messages), keep);
      && Systems(kept) == Systems(messages)
      && Others(kept) == Others(messages)[|Others(messages)| - keep..]
  {
    Partition(messages);
    JoinSplits(Systems(messages), Others(messages)[|Others(messages)| - keep..]);
  }

  /** With nothing left to drop, everything is kept. */
  lemma MinimalStays(envelope: nat, system: seq<Message>, last: seq<Message>, maxBody: int)
    requires |last| <= 1
    ensures Kept(system, last, KeepFrom(envelope, system, last, |last|, maxBody)) == system + last
  {
    assert last[|last| - |last|..] == last;
  }

  lemma RecompactMinimal(envelope: nat, system: seq<Message>, last: seq<Message>, maxBody: int)
    requires Systems(system + last) == system && Others(system + last) == last && |last| <= 1
    ensures Compact(Serialize(envelope, system + last), maxBody) == Serialize(envelope, system + last)
  {
    MinimalStays(envelope, system, last, maxBody);
  }

  /** Compacting twice is compacting once. */
  lemma CompactTwice(body: Body, maxBody: int)
    ensures Compact(Compact(body, maxBody), maxBody) == Compact(body, maxBody)
  {
    if !Untouched(body, maxBody) {
      var envelope, system, others := body.doc.envelope, Systems(body.doc.messages), Others(body.doc.messages);
      KeepFromIsLongest(envelope, system, others, |others|, maxBody);
      var keep := KeepFrom(envelope, system, others, |others|, maxBody);
      KeptSplits(body.doc.messages, keep);
      if Compact(body, maxBody).length > maxBody {
        RecompactMinimal(envelope, system, others[|others| - keep..], maxBody);
      }
    }
  }
}
