/**
  The text handed to a webview for each drained edit batch, and the log of
  `evaluate_script` calls that a drain produces.
*/
module Scripts {
  import opened Wrappers
  import opened Host

  /** The fixed text that wraps every serialized batch sent to the page's interpreter. */
  const Prefix: string := "window.interpreter.handleEdits("
  const Suffix: string := ")"

  /** The script that delivers one serialized batch: `window.interpreter.handleEdits(<edit>)`. */
  function Script(edit: string): (s: string)
  {
    Prefix + edit + Suffix
  }

  /** Recovers the batch embedded in a delivery script; `None` for any other text. */
  function EditOf(script: string): (r: Option<string>)
  {
    if |script| >= |Prefix| + |Suffix|
       && script[..|Prefix|] == Prefix
       && script[|script| - |Suffix|..] == Suffix
    then Some(script[|Prefix|..|script| - |Suffix|])
    else None
  }

  /** Reading the batch back out of its delivery script gives the batch. */
  lemma ScriptRoundTrip(edit: string)
    ensures EditOf(Script(edit)) == Some(edit)
  {
  }

  /** Only delivery scripts decode, and each decodes to the batch it wraps. */
  lemma EditOfOnlyScripts(script: string, edit: string)
    requires EditOf(script) == Some(edit)
    ensures script == Script(edit)
  {
  }

  /** Distinct batches give distinct scripts, so a delivered script names its batch. */
  lemma ScriptInjective(a: string, b: string)
    ensures Script(a) == Script(b) <==> a == b
  {
    if Script(a) == Script(b) {
      ScriptRoundTrip(a);
      ScriptRoundTrip(b);
    }
  }

  /** One `evaluate_script` call: the window whose webview ran it, that webview, and the script. */
  datatype ScriptCall = ScriptCall(window: WindowId, view: WebView, script: string)

  /** The calls one drain issues: one script per batch, in queue order, all to one webview. */
  function Deliveries(window: WindowId, view: WebView, edits: seq<string>): (calls: seq<ScriptCall>)
  {
    if edits == [] then []
    else [ScriptCall(window, view, Script(edits[0]))] + Deliveries(window, view, edits[1..])
  }

  /** The batches a log of script calls delivers, in order; `None` if some call is not a delivery. */
  function EditsOf(calls: seq<ScriptCall>): (r: Option<seq<string>>)
  {
    if calls == [] then Some([])
    else
      match (EditOf(calls[0].script), EditsOf(calls[1..]))
      case (Some(e), Some(rest)) => Some([e] + rest)
      case _ => None
  }

  /** The k-th call of a drain goes to the chosen webview and carries exactly the k-th batch. */
  lemma {:induction false} DeliveriesAt(window: WindowId, view: WebView, edits: seq<string>)
    ensures |Deliveries(window, view, edits)| == |edits|
    ensures forall k :: 0 <= k < |edits| ==>
              Deliveries(window, view, edits)[k] == ScriptCall(window, view, Script(edits[k]))
  {
    if edits != [] {
      DeliveriesAt(window, view, edits[1..]);
      forall k | 0 < k < |edits|
        ensures Deliveries(window, view, edits)[k] == ScriptCall(window, view, Script(edits[k]))
      {
        assert edits[1..][k - 1] == edits[k];
      }
    }
  }

  /** Delivering two runs of batches one after the other is delivering their concatenation. */
  lemma {:induction false} DeliveriesAppend(window: WindowId, view: WebView, a: seq<string>, b: seq<string>)
    ensures Deliveries(window, view, a + b) == Deliveries(window, view, a) + Deliveries(window, view, b)
  {
    if a == [] {
      assert a + b == b;
    } else {
      assert (a + b)[1..] == a[1..] + b;
      DeliveriesAppend(window, view, a[1..], b);
    }
  }

  /** The calls of a drain decode back to exactly the drained batches, in order. */
  lemma {:induction false} EditsOfDeliveries(window: WindowId, view: WebView, edits: seq<string>)
    ensures EditsOf(Deliveries(window, view, edits)) == Some(edits)
  {
    if edits != [] {
      var calls := Deliveries(window, view, edits);
      assert calls[1..] == Deliveries(window, view, edits[1..]);
      ScriptRoundTrip(edits[0]);
      EditsOfDeliveries(window, view, edits[1..]);
      assert edits == [edits[0]] + edits[1..];
    }
  }

  /** The batches delivered by two logs in sequence are those of the first, then those of the second. */
  lemma {:induction false} EditsOfAppend(a: seq<ScriptCall>, b: seq<ScriptCall>, x: seq<string>, y: seq<string>)
    requires EditsOf(a) == Some(x) && EditsOf(b) == Some(y)
    ensures EditsOf(a + b) == Some(x + y)
  {
    if a == [] {
      assert a + b == b && x + y == y;
    } else {
      assert (a + b)[1..] == a[1..] + b;
      var rest :| EditsOf(a[1..]) == Some(rest) && x == [EditOf(a[0].script).value] + rest;
      EditsOfAppend(a[1..], b, rest, y);
      assert x + y == [EditOf(a[0].script).value] + (rest + y);
    }
  }
}
