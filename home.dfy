/**
 * What the prediction handler does once the row is built (app.py, lines 88-111):
 * report missing columns, or classify the row, choose the risk message and store
 * one prediction record; any exception raised on the way becomes the generic error.
 */
module Home {
  import opened Wrappers
  import opened FeatureRow

  const HighRiskMessage: string :=
    "High Risk of Heart Disease. Your results indicate an elevated likelihood of heart disease."
  const LowRiskMessage: string :=
    "Low Risk of Heart Disease. Your profile suggests a lower chance of heart disease at this time."

  /** The message for a predicted class: class 1 reads as high risk, every other class as low risk. */
  function RiskMessage(predicted: int): (m: string)
    ensures m == HighRiskMessage <==> predicted == 1
    ensures m == LowRiskMessage <==> predicted != 1
  {
    if predicted == 1 then HighRiskMessage else LowRiskMessage
  }

  /** The error shown on the page. */
  datatype Error =
    | MissingInputs(columns: seq<string>)  // "Missing inputs: [...]"
    | SomethingWentWrong                    // the text shown for every exception

  /** The three values handed to the template: `prediction`, `proba` and `error`. */
  datatype View = View(prediction: Option<string>, proba: Option<real>, error: Option<Error>)

  /** A row of the predictions table, without its identifier and timestamp. */
  datatype PredictionRecord = PredictionRecord(username: string, inputs: Row, prediction: string, probability: Option<real>)

  /**
   * The pretrained pipeline, opaque: `predict` gives the class label, or `None` when it
   * raises; `probability` gives the high-risk percentage, `Ok(None)` when the
   * pipeline has no `predict_proba`, or `Err` when `predict_proba` raises.
   */
  datatype Classifier = Classifier(predict: Row -> Option<int>, probability: Row -> Result<Option<real>, ()>)

  /** What one submission renders, and the record it stores, if any. */
  datatype Response = Response(view: View, stored: Option<PredictionRecord>)

  /** The page for an exception raised before any result was assigned. */
  const Failed: Response := Response(View(None, None, Some(SomethingWentWrong)), None)

  /**
   * The branch after the loop (lines 88-107) for a built row; `writable` says
   * whether the insert into the predictions table succeeds. An exception from
   * `predict` or `predict_proba` comes before `prediction` is assigned.
   */
  function Classify(row: Row, clf: Classifier, user: string, writable: bool): Response {
    if AnyMissing(row) then Response(View(None, None, Some(MissingInputs(MissingColumns(row)))), None)
    else
      match clf.predict(row)
      case None => Failed
      case Some(predicted) =>
        match clf.probability(row)
        case Err(_) => Failed
        case Ok(proba) =>
          var message := RiskMessage(predicted);
          if writable then Response(View(Some(message), proba, None), Some(PredictionRecord(user, row, message, proba)))
          // the insert raised: `prediction` and `proba` were already assigned
          else Response(View(Some(message), proba, Some(SomethingWentWrong)), None)
  }

  /** One POST of the prediction form by the logged-in `user`. */
  function Respond(cfg: Config, form: Form, parse: NumberParser, clf: Classifier, user: string, writable: bool): Response {
    match BuildRowSpec(cfg, form, parse)
    case Err(_) => Failed
    case Ok(row) => Classify(row, clf, user, writable)
  }

  /** The predictions table: its rows, and whether an insert into it succeeds. */
  class PredictionTable {
    var rows: seq<PredictionRecord>
    var writable: bool

    constructor (writable: bool)
      ensures rows == [] && this.writable == writable
    {
      rows := [];
      this.writable := writable;
    }

    /** The INSERT of lines 101-107: appends one row, or raises (`ok` false) and changes nothing. */
    method Insert(rec: PredictionRecord) returns (ok: bool)
      modifies this
      ensures ok == old(writable) && writable == old(writable)
      ensures rows == if ok then old(rows) + [rec] else old(rows)
    {
      ok := writable;
      if ok {
        rows := rows + [rec];
      }
    }
  }

  /** The POST branch of the handler (lines 60-113): the view it renders and the row it adds to the table. */
  method Submit(table: PredictionTable, cfg: Config, form: Form, parse: NumberParser, clf: Classifier, user: string)
    returns (view: View)
    modifies table
    ensures table.writable == old(table.writable)
    ensures var r := Respond(cfg, form, parse, clf, user, old(table.writable));
      && view == r.view
      && table.rows == old(table.rows) + (if r.stored.Some? then [r.stored.value] else [])
  {
    var built := BuildRow(cfg, form, parse);
    if built.Err? {
      return Failed.view;
    }
    var row := built.value;
    if AnyMissing(row) {
      return View(None, None, Some(MissingInputs(MissingColumns(row))));
    }
    var pred := clf.predict(row);
    if pred.None? {
      return Failed.view;
    }
    var probability := clf.probability(row);
    if probability.Err? {
      return Failed.view;
    }
    var proba := probability.value;
    var prediction := RiskMessage(pred.value);
    var ok := table.Insert(PredictionRecord(user, row, prediction, proba));
    if !ok {
      return View(Some(prediction), proba, Some(SomethingWentWrong));
    }
    return View(Some(prediction), proba, None);
  }

  // ---------------------------------------------------------------------------
  // Properties of the outcome

  /**
   * A record is stored exactly when the page shows no error; it is then the user's
   * complete row with the shown message and probability, the message follows the
   * class label, and the table accepted the insert.
   */
  lemma StoredOnlyOnSuccess(cfg: Config, form: Form, parse: NumberParser, clf: Classifier, user: string, writable: bool)
    ensures var r := Respond(cfg, form, parse, clf, user, writable);
      r.stored.Some? <==> r.view.error.None?
    ensures var r := Respond(cfg, form, parse, clf, user, writable);
      r.stored.Some? ==>
        && writable
        && r.stored.value.username == user
        && BuildRowSpec(cfg, form, parse) == Ok(r.stored.value.inputs)
        && !AnyMissing(r.stored.value.inputs)
        && clf.predict(r.stored.value.inputs).Some?
        && clf.probability(r.stored.value.inputs) == Ok(r.stored.value.probability)
        && r.stored.value.prediction == RiskMessage(clf.predict(r.stored.value.inputs).value)
        && r.view.prediction == Some(r.stored.value.prediction)
        && r.view.proba == r.stored.value.probability
    ensures var r := Respond(cfg, form, parse, clf, user, writable);
      (&& writable && BuildRowSpec(cfg, form, parse).Ok?
       && !AnyMissing(BuildRowSpec(cfg, form, parse).value)
       && clf.predict(BuildRowSpec(cfg, form, parse).value).Some?
       && clf.probability(BuildRowSpec(cfg, form, parse).value).Ok?) ==> r.stored.Some?
  {
    match BuildRowSpec(cfg, form, parse)
    case Err(_) =>
    case Ok(row) =>
      if !AnyMissing(row) {
        match clf.predict(row)
        case None =>
        case Some(predicted) =>
          match clf.probability(row)
          case Err(_) =>
          case Ok(proba) =>
      }
  }

  /** The shown message is the high-risk text exactly when the classifier returned class 1. */
  lemma MessageFollowsLabel(cfg: Config, form: Form, parse: NumberParser, clf: Classifier, user: string, writable: bool)
    requires Respond(cfg, form, parse, clf, user, writable).view.prediction.Some?
    ensures BuildRowSpec(cfg, form, parse).Ok?
    ensures var r, row := Respond(cfg, form, parse, clf, user, writable), BuildRowSpec(cfg, form, parse).value;
      && (r.view.prediction == Some(HighRiskMessage) <==> clf.predict(row) == Some(1))
      && (r.view.prediction == Some(LowRiskMessage) <==> clf.predict(row).Some? && clf.predict(row) != Some(1))
  {
    match BuildRowSpec(cfg, form, parse)
    case Err(_) =>
    case Ok(row) =>
      if !AnyMissing(row) {
        match clf.predict(row)
        case None =>
        case Some(predicted) =>
          match clf.probability(row)
          case Err(_) =>
          case Ok(proba) =>
      }
  }

  /**
   * When every column resolves but some are blank, the page reports every blank
   * column, in column order, whatever the classifier is (it is never consulted),
   * and nothing is stored.
   */
  lemma MissingInputsSkipClassifier(cfg: Config, form: Form, parse: NumberParser, clf: Classifier, other: Classifier,
                                    user: string, writable: bool)
    requires Distinct(Columns(cfg))
    requires BuildRowSpec(cfg, form, parse).Ok?
    requires BlankColumns(Columns(cfg), form) != []
    ensures Respond(cfg, form, parse, clf, user, writable)
         == Respond(cfg, form, parse, other, user, writable)
         == Response(View(None, None, Some(MissingInputs(BlankColumns(Columns(cfg), form)))), None)
  {
    var row := BuildRowSpec(cfg, form, parse).value;
    MissingReportListsBlankColumns(cfg, form, parse, row);
  }

  /**
   * When `predict` or `predict_proba` raises on a complete row, the page shows only
   * the generic error (no prediction, no probability) and nothing is stored.
   */
  lemma ClassifierFailureGivesGenericError(cfg: Config, form: Form, parse: NumberParser, clf: Classifier, user: string,
                                           writable: bool)
    requires BuildRowSpec(cfg, form, parse).Ok? && !AnyMissing(BuildRowSpec(cfg, form, parse).value)
    requires var row := BuildRowSpec(cfg, form, parse).value;
      clf.predict(row).None? || clf.probability(row).Err?
    ensures Respond(cfg, form, parse, clf, user, writable) == Failed
  {
    var row := BuildRowSpec(cfg, form, parse).value;
    match clf.predict(row)
    case None =>
    case Some(predicted) =>
  }

  /**
   * A column that fails to resolve (an unmatched mapping label or a malformed number) gives
   * only the generic error and stores nothing, even when other columns were blank
   * and whatever the classifier is.
   */
  lemma BadColumnGivesGenericError(cfg: Config, form: Form, parse: NumberParser, clf: Classifier, user: string,
                                   writable: bool, j: nat)
    requires j < |Columns(cfg)|
    requires Resolve(cfg, Columns(cfg)[j], FormGet(form, Columns(cfg)[j]), parse).Err?
    ensures Respond(cfg, form, parse, clf, user, writable) == Failed
  {
    BuildRowFailsAtFirstBadColumn(cfg, form, parse);
  }
}
