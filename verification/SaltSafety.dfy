/** No ciphertext is stranded by a lost salt, over every run of crashing processes. */
module SaltSafety {
  import opened Options
  import opened Ciphers
  import opened SaltProtocol

  lemma {:induction false} RunSplits(s: State, before: seq<Event>, after: seq<Event>)
    requires Run(s, before + after).Some?
    ensures Run(s, before).Some? && Run(s, before + after) == Run(Run(s, before).value, after)
    decreases |after|
  {
    if after == [] {
      assert before + after == before;
    } else {
      var last := |after| - 1;
      assert (before + after)[..|before| + last] == before + after[..last];
      RunSplits(s, before, after[..last]);
    }
  }

  /** A process may write under a salt only once that salt's directory entry is durable. */
  lemma WritersUseDurableSalts(s: State, events: seq<Event>, pid: Pid, key: Key)
    requires Initial(s) && Run(s, events).Some?
    requires pid in Run(s, events).value.processes && key in Run(s, events).value.processes[pid].writers
    ensures key.Salted? && Run(s, events).value.durable == Some(File(key.salt, Yes))
  {
    RunKeeps(s, events);
    assert ProcessInv(Run(s, events).value, Run(s, events).value.processes[pid]);
  }

  /** Once a ciphertext exists under a salt, every continuation, crashes included, keeps that very salt. */
  lemma UsedSaltStaysForever(s: State, before: seq<Event>, after: seq<Event>, t: Token)
    requires Initial(s) && Run(s, before + after).Some?
    requires Run(s, before).Some? && t in Run(s, before).value.tokens && t.key.Salted?
    ensures Run(s, before + after).value.visible == Some(File(t.key.salt, Yes))
    ensures Run(s, before + after).value.durable == Some(File(t.key.salt, Yes))
  {
    RunSplits(s, before, after);
    RunKeeps(s, before);
    RunKeeps(Run(s, before).value, after);
  }

  /** No ciphertext is ever stranded: whatever was sealed opens in every later state. */
  lemma EveryTokenOpensLater(s: State, before: seq<Event>, after: seq<Event>, t: Token)
    requires Initial(s) && Run(s, before + after).Some?
    requires Run(s, before).Some? && t in Run(s, before).value.tokens
    ensures var keys := ReadKeys(Run(s, before + after).value.visible);
      keys.Ok? && keys.value != [] && DecryptWithAny(keys.value, t) == Ok(t.plaintext)
  {
    RunSplits(s, before, after);
    RunKeeps(s, before);
    RunKeeps(Run(s, before).value, after);
  }

  /** All processes of all boots that may write use one salt. */
  lemma WritersConverge(s: State, events: seq<Event>, pid: Pid, other: Pid, key: Key, key': Key)
    requires Initial(s) && Run(s, events).Some?
    requires var p := Run(s, events).value.processes;
      pid in p && other in p && key in p[pid].writers && key' in p[other].writers
    ensures key == key'
  {
    RunKeeps(s, events);
    assert ProcessInv(Run(s, events).value, Run(s, events).value.processes[pid]);
    assert ProcessInv(Run(s, events).value, Run(s, events).value.processes[other]);
  }
}
