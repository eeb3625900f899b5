/**
 * One iteration of `predict` (script.js): skip while the model is not loaded,
 * otherwise select the top prediction, update the label, and send the class
 * name when its probability is above the cutoff. Drawing the frame and the
 * model's inference are outside the model; the prediction list (or the
 * rejection of `model.predict`) is an input.
 */
module Frame {
  import opened Wrappers
  import opened Classifier
  import opened Styling
  import opened Serial

  /** How one iteration ends. `Waiting`: the model is not loaded yet.
      `Failed`: an exception reached the `catch` of `predict`. `Shown`: the
      label was updated, and `sends` says whether `sendToESP32` was called. */
  datatype FrameOutcome = Waiting | Failed | Shown(view: View, sends: bool)

  /** `inference` is None when `model.predict` rejects. An empty list leaves
      `maxPrediction` undefined, and `updateUI` throws on it. */
  function FrameDecision(modelLoaded: bool, inference: Option<seq<Prediction>>): FrameOutcome {
    if !modelLoaded then Waiting
    else
      match inference
      case None => Failed
      case Some(ps) =>
        if ps == [] then Failed
        else
          var top := ps[TopIndex(ps)];
          Shown(UpdateUI(top), AboveThreshold(top.probability))
  }

  /** The link after the iteration: only a `Shown` frame that sends touches it. */
  function FrameStep(s: LinkState, modelLoaded: bool, inference: Option<seq<Prediction>>,
                     writeSucceeds: bool): LinkState {
    match FrameDecision(modelLoaded, inference)
    case Shown(v, true) => Send(s, v.text, writeSucceeds)
    case _ => s
  }

  method Predict(link: SerialLink, modelLoaded: bool, inference: Option<seq<Prediction>>,
                 writeSucceeds: bool) returns (outcome: FrameOutcome)
    modifies link
    ensures outcome == FrameDecision(modelLoaded, inference)
    ensures link.State() == FrameStep(old(link.State()), modelLoaded, inference, writeSucceeds)
  {
    if !modelLoaded {
      return Waiting;
    }
    if inference.None? {
      return Failed;
    }
    var top := SelectTop(inference.value);
    if top.None? {
      return Failed;
    }
    var prediction := top.value;
    var view := UpdateUI(prediction);
    var sends := prediction.probability > ConfidenceThreshold;
    if sends {
      link.SendToESP32(prediction.className, writeSucceeds);
    }
    return Shown(view, sends);
  }

  /** For a non-empty list the label shown is the first most probable class,
      and it is sent exactly when its probability is strictly above 0.6. */
  lemma ShownLabelIsTopAndSentIffAboveCutoff(ps: seq<Prediction>)
    requires ps != []
    ensures var o := FrameDecision(true, Some(ps));
            o.Shown? &&
            o.view.text == ps[TopIndex(ps)].className &&
            (o.sends <==> ps[TopIndex(ps)].probability > 0.6)
  {
  }

  /** The label is emphasised exactly on the frames that send it. */
  lemma HighlightAgreesWithSend(modelLoaded: bool, inference: Option<seq<Prediction>>)
    ensures var o := FrameDecision(modelLoaded, inference);
            o.Shown? ==> (o.view.highlight.fontWeight == 700 <==> o.sends)
  {
  }

  /** A list whose probabilities are all at most 0.6 (the cutoff itself
      included) never writes to the link. */
  lemma NothingSentAtOrBelowCutoff(s: LinkState, modelLoaded: bool, ps: seq<Prediction>, writeSucceeds: bool)
    requires forall j :: 0 <= j < |ps| ==> ps[j].probability <= 0.6
    ensures FrameStep(s, modelLoaded, Some(ps), writeSucceeds) == s
  {
  }

  /** A model not yet loaded, a rejected inference and an empty list all leave the link as it was. */
  lemma FailedFramesChangeNothing(s: LinkState, modelLoaded: bool, inference: Option<seq<Prediction>>,
                                  writeSucceeds: bool)
    requires !modelLoaded || inference.None? || inference == Some([])
    ensures FrameDecision(modelLoaded, inference) == (if modelLoaded then Failed else Waiting)
    ensures FrameStep(s, modelLoaded, inference, writeSucceeds) == s
  {
  }

  /** The same confident reading on two frames in a row is written twice:
      there is no memory of the last class sent. */
  lemma RepeatedReadingIsSentEveryFrame(s: LinkState)
    requires s.isConnected && s.writer.Some?
    ensures var ps := [Prediction("vegetal", 0.9), Prediction("plastico", 0.1)];
            FrameStep(FrameStep(s, true, Some(ps), true), true, Some(ps), true).wire ==
            s.wire + "vegetal\n" + "vegetal\n"
  {
    var ps := [Prediction("vegetal", 0.9), Prediction("plastico", 0.1)];
    assert TopIndex(ps) == 0 by {
      FirstMaxIsUnique(ps, 0);
    }
  }

  /** On a tie the earlier class is shown and sent. */
  lemma TieSendsEarlierClass(s: LinkState)
    requires s.isConnected && s.writer.Some?
    ensures var ps := [Prediction("nada", 0.7), Prediction("vegetal", 0.7)];
            FrameStep(s, true, Some(ps), true).wire == s.wire + "nada\n"
  {
    var ps := [Prediction("nada", 0.7), Prediction("vegetal", 0.7)];
    assert TopIndex(ps) == 0 by {
      FirstMaxIsUnique(ps, 0);
    }
  }
}
