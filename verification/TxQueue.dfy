/** The transmit queue of the entity: one octet buffer, the end offset of each message, and a read position. */
module TxQueue {
  import opened Frames
  import opened Segmentation

  /** Message ends strictly increase up to the end of the buffer; the position lies inside the current message. */
  predicate QueueOk(bytes: Octets, ends: seq<nat>, idx: nat, pos: nat) {
    && (forall i, j :: 0 <= i < j < |ends| ==> ends[i] < ends[j])
    && (if ends == [] then bytes == [] && idx == 0 && pos == 0
        else idx < |ends| && ends[|ends| - 1] == |bytes| && pos < ends[idx]
             && (forall i :: 0 <= i < idx ==> ends[i] <= pos))
  }

  /** The unsent part of the current message, then the messages behind it. */
  function Unsent(bytes: Octets, ends: seq<nat>, idx: nat, pos: nat): (q: seq<Octets>)
    requires forall i, j :: 0 <= i < j < |ends| ==> ends[i] < ends[j]
    requires idx < |ends| ==> pos < ends[idx] && ends[|ends| - 1] <= |bytes|
    ensures NonEmpty(q)
    ensures q == [] <==> idx >= |ends|
    decreases |ends| - idx
  {
    if idx >= |ends| then []
    else
      assert forall i :: 0 <= i < |ends| ==> ends[i] <= ends[|ends| - 1];
      [bytes[pos..ends[idx]]] + Unsent(bytes, ends, idx + 1, ends[idx])
  }

  /** Appending a message to the buffer appends it to what is unsent. */
  lemma {:induction false} UnsentPush(bytes: Octets, ends: seq<nat>, idx: nat, pos: nat, data: Octets)
    requires forall i, j :: 0 <= i < j < |ends| ==> ends[i] < ends[j]
    requires idx <= |ends| && data != []
    requires if idx < |ends| then pos < ends[idx] && ends[|ends| - 1] == |bytes| else pos == |bytes|
    requires ends != [] ==> ends[|ends| - 1] == |bytes|
    ensures var ends' := ends + [|bytes + data|];
      && (forall i, j :: 0 <= i < j < |ends'| ==> ends'[i] < ends'[j])
      && pos < ends'[idx]
      && Unsent(bytes + data, ends', idx, pos) == Unsent(bytes, ends, idx, pos) + [data]
    decreases |ends| - idx
  {
    var bytes', ends' := bytes + data, ends + [|bytes + data|];
    if idx == |ends| {
      assert bytes'[pos..|bytes'|] == data;
      assert Unsent(bytes', ends', idx + 1, |bytes'|) == [];
      assert [] + [data] == [data];
    } else {
      assert ends[idx] <= ends[|ends| - 1];
      UnsentPush(bytes, ends, idx + 1, ends[idx], data);
      assert bytes'[pos..ends'[idx]] == bytes[pos..ends[idx]];
      var rest := Unsent(bytes, ends, idx + 1, ends[idx]);
      assert [bytes[pos..ends[idx]]] + (rest + [data]) == [bytes[pos..ends[idx]]] + rest + [data];
    }
  }

  /** What is unsent is exactly the buffer from the read position on. */
  lemma {:induction false} UnsentBytes(bytes: Octets, ends: seq<nat>, idx: nat, pos: nat)
    requires forall i, j :: 0 <= i < j < |ends| ==> ends[i] < ends[j]
    requires idx <= |ends| && pos <= |bytes|
    requires if idx < |ends| then pos < ends[idx] && ends[|ends| - 1] == |bytes| else pos == |bytes|
    ensures Concat(Unsent(bytes, ends, idx, pos)) == bytes[pos..]
    decreases |ends| - idx
  {
    if idx < |ends| {
      assert ends[idx] <= ends[|ends| - 1];
      UnsentBytes(bytes, ends, idx + 1, ends[idx]);
      var q := Unsent(bytes, ends, idx, pos);
      assert q[0] == bytes[pos..ends[idx]] && q[1..] == Unsent(bytes, ends, idx + 1, ends[idx]);
      assert bytes[pos..ends[idx]] + bytes[ends[idx]..] == bytes[pos..];
    }
  }

  /** Taking a segment off the current message. */
  lemma UnsentCut(n201: nat, bytes: Octets, ends: seq<nat>, idx: nat, pos: nat)
    requires QueueOk(bytes, ends, idx, pos) && ends != []
    ensures ends[idx] <= |bytes|
    ensures var left := ends[idx] - pos; var q := Unsent(bytes, ends, idx, pos);
      && q != [] && q[0] == bytes[pos..ends[idx]]
      && (left > n201 ==>
            q[0][..n201] == bytes[pos..pos + n201] && Unsent(bytes, ends, idx, pos + n201) == AfterCut(n201, q))
      && (left <= n201 ==> Unsent(bytes, ends, idx + 1, ends[idx]) == AfterCut(n201, q))
  {
    assert ends[idx] <= ends[|ends| - 1];
    var q := Unsent(bytes, ends, idx, pos);
    assert q[1..] == Unsent(bytes, ends, idx + 1, ends[idx]);
    if ends[idx] - pos > n201 {
      assert bytes[pos..ends[idx]][n201..] == bytes[pos + n201..ends[idx]];
    }
  }
}
