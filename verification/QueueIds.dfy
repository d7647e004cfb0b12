/** Identifiers of queued tasks: `queued-{millis}-{counter:04x}`. */
module QueueIds {
  import opened Prelude
  import opened Digits
  import opened Text

  // The store keeps ids printed; `PrintInjective` lets the model keep what was printed.
  datatype QueueId = QueueId(millis: int, counter: Word64)

  function Front(q: QueueId): string {
    "queued-" + PrintInt(q.millis)
  }

  function Print(q: QueueId): string {
    Front(q) + "-" + PrintPadded(q.counter, Hex, 4)
  }

  lemma HexHasNoHyphen(counter: nat)
    ensures '-' !in PrintPadded(counter, Hex, 4)
  {
    PrintPaddedRoundTrip(counter, Hex, 4);
  }

  lemma CounterIsPrinted(q: QueueId)
    ensures Parse(AfterLastHyphen(Print(q)), Hex) == q.counter
  {
    HexHasNoHyphen(q.counter);
    LastHyphenDelimits(Front(q), PrintPadded(q.counter, Hex, 4));
    PrintPaddedRoundTrip(q.counter, Hex, 4);
  }

  lemma FrontsAgree(front: string, front': string, digits: string)
    requires front + "-" + digits == front' + "-" + digits
    ensures front == front'
  {
    var s := front + "-" + digits;
    assert |front| == |front'|;
    assert s[..|front|] == front && s[..|front'|] == front';
  }

  /** Two printed ids are equal exactly when both the clock reading and the counter were. */
  lemma PrintInjective(a: QueueId, b: QueueId)
    ensures Print(a) == Print(b) <==> a == b
  {
    if Print(a) == Print(b) {
      CounterIsPrinted(a);
      CounterIsPrinted(b);
      FrontsAgree(Front(a), Front(b), PrintPadded(a.counter, Hex, 4));
      assert Front(a)[7..] == PrintInt(a.millis) && Front(b)[7..] == PrintInt(b.millis);
      PrintIntInjective(a.millis, b.millis);
    }
  }
}
