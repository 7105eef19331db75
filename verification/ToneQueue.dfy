/** The queue of DTMF tones of an oFono origin: one batch is with the modem at a time, the keys pressed
    meanwhile wait for it. */
module ToneQueue {
  import opened CallStates

  /** `outstanding` counts the batches without a reply, `sent` lists all batches handed to the modem. */
  datatype Tones = Tones(sending: bool, queue: Option<string>, outstanding: nat, sent: seq<string>)

  const IDLE := Tones(false, None, 0, [])

  datatype Input = Press(key: char) | Reply(ok: bool)

  function Send(t: Tones, batch: string): Tones
  {
    t.(sent := t.sent + [batch], outstanding := t.outstanding + 1)
  }

  predicate Enabled(t: Tones, i: Input)
  {
    i.Reply? ==> t.outstanding > 0
  }

  function Apply(t: Tones, i: Input): Tones
    requires Enabled(t, i)
  {
    match i
    case Press(key) =>
      if t.sending then t.(queue := Some(if t.queue.Some? then t.queue.value + [key] else [key]))
      else Send(t, [key]).(sending := true)
    case Reply(_) =>
      var replied := t.(outstanding := t.outstanding - 1);
      match t.queue
      case Some(batch) => Send(replied, batch).(queue := None)
      case None => replied.(sending := false)
  }

  predicate Possible(t: Tones, inputs: seq<Input>)
    decreases |inputs|
  {
    inputs == [] || (Enabled(t, inputs[0]) && Possible(Apply(t, inputs[0]), inputs[1..]))
  }

  function Run(t: Tones, inputs: seq<Input>): Tones
    requires Possible(t, inputs)
    decreases |inputs|
  {
    if inputs == [] then t else Run(Apply(t, inputs[0]), inputs[1..])
  }

  function Concat(batches: seq<string>): string
  {
    if batches == [] then "" else Concat(batches[..|batches| - 1]) + batches[|batches| - 1]
  }

  /** The keys that have been taken so far, in order: those sent, then those queued. */
  function Taken(t: Tones): string
  {
    Concat(t.sent) + if t.queue.Some? then t.queue.value else ""
  }

  function Keys(inputs: seq<Input>): string
  {
    if inputs == [] then "" else (if inputs[0].Press? then [inputs[0].key] else "") + Keys(inputs[1..])
  }

  function Replies(inputs: seq<Input>): nat
  {
    if inputs == [] then 0 else (if inputs[0].Reply? then 1 else 0) + Replies(inputs[1..])
  }

  /** At most one batch is outstanding; keys wait only while one is; no batch is empty. */
  ghost predicate Inv(t: Tones)
  {
    && t.outstanding <= 1 && (t.sending <==> t.outstanding == 1)
    && (t.queue.Some? ==> t.sending && t.queue.value != "")
    && (forall k :: 0 <= k < |t.sent| ==> t.sent[k] != "")
  }

  lemma OneMoreBatch(batches: seq<string>, batch: string)
    ensures Concat(batches + [batch]) == Concat(batches) + batch
  {
    assert (batches + [batch])[..|batches|] == batches;
  }

  lemma StepConserves(t: Tones, i: Input)
    requires Inv(t) && Enabled(t, i)
    ensures Inv(Apply(t, i))
    ensures Taken(Apply(t, i)) == Taken(t) + if i.Press? then [i.key] else ""
    ensures |Apply(t, i).sent| + t.outstanding == |t.sent| + Apply(t, i).outstanding + if i.Reply? then 1 else 0
  {
    match i
    case Press(key) => OneMoreBatch(t.sent, [key]);
    case Reply(_) => if t.queue.Some? { OneMoreBatch(t.sent, t.queue.value); }
  }

  lemma Regroup(a: string, b: string, c: string)
    ensures a + b + c == a + (b + c)
  {
  }

  /** Over every interleaving of keys and replies, whether a batch succeeds or fails: the batches sent, in
      order, followed by the queue, are exactly the keys pressed; and every batch but the outstanding one
      has had its reply. */
  lemma {:induction false} TonesConserved(t: Tones, inputs: seq<Input>)
    requires Inv(t) && Possible(t, inputs)
    ensures var u := Run(t, inputs);
            && Inv(u) && Taken(u) == Taken(t) + Keys(inputs)
            && |u.sent| + t.outstanding == |t.sent| + u.outstanding + Replies(inputs)
    decreases |inputs|
  {
    if inputs == [] {
      assert Taken(t) + "" == Taken(t);
    } else {
      StepConserves(t, inputs[0]);
      TonesConserved(Apply(t, inputs[0]), inputs[1..]);
      var first := if inputs[0].Press? then [inputs[0].key] else "";
      Regroup(Taken(t), first, Keys(inputs[1..]));
    }
  }

  /** Once no more keys are pressed, two replies at most empty the queue, and everything has been sent. */
  lemma QueueDrains(t: Tones, first: bool, second: bool)
    requires Inv(t) && t.sending
    ensures var u := Apply(t, Reply(first));
            && (t.queue.None? ==> !u.sending && Concat(u.sent) == Taken(t))
            && (t.queue.Some? ==>
                  && u.sending
                  && !Apply(u, Reply(second)).sending && Concat(Apply(u, Reply(second)).sent) == Taken(t))
  {
    StepConserves(t, Reply(first));
    var u := Apply(t, Reply(first));
    if t.queue.Some? {
      StepConserves(u, Reply(second));
    }
  }

  /** From the start: the first key is sent at once, and on every run the keys sent, then those queued, are the
      keys pressed, with one reply for every batch but the one that is outstanding. */
  lemma FromIdle(inputs: seq<Input>, key: char)
    requires Possible(IDLE, inputs)
    ensures Apply(IDLE, Press(key)) == Tones(true, None, 1, [[key]])
    ensures var u := Run(IDLE, inputs);
            && Keys(inputs) == Concat(u.sent) + (if u.queue.Some? then u.queue.value else "")
            && |u.sent| == u.outstanding + Replies(inputs)
  {
    assert [] + [[key]] == [[key]];
    TonesConserved(IDLE, inputs);
    assert Taken(IDLE) == "" && "" + Keys(inputs) == Keys(inputs);
  }

  class OfonoTones {
    var sendingTones: bool
    var toneQueue: Option<string>
    ghost var outstanding: nat
    ghost var sent: seq<string>

    ghost function View(): Tones
      reads this
    {
      Tones(sendingTones, toneQueue, outstanding, sent)
    }

    ghost predicate Valid()
      reads this
    {
      Inv(View())
    }

    constructor ()
      ensures View() == IDLE && Valid()
    {
      sendingTones, toneQueue, outstanding, sent := false, None, 0, [];
    }

    ghost method HandOver(batch: string)
      modifies this`sent, this`outstanding
      ensures sent == old(sent) + [batch] && outstanding == old(outstanding) + 1
    {
      sent := sent + [batch];
      outstanding := outstanding + 1;
    }

    method OnTone(key: char)
      requires Valid()
      modifies this
      ensures View() == Apply(old(View()), Press(key)) && Valid()
    {
      StepConserves(View(), Press(key));
      if sendingTones {
        if toneQueue.Some? {
          toneQueue := Some(toneQueue.value + [key]);
        } else {
          toneQueue := Some([key]);
        }
      } else {
        HandOver([key]);
        sendingTones := true;
      }
    }

    method OnTonesSent(ok: bool)
      requires Valid() && outstanding > 0
      modifies this
      ensures View() == Apply(old(View()), Reply(ok)) && Valid()
    {
      StepConserves(View(), Reply(ok));
      outstanding := outstanding - 1;
      if toneQueue.Some? {
        HandOver(toneQueue.value);
        toneQueue := None;
      } else {
        sendingTones := false;
      }
    }
  }
}
