/** The inference service (services/inference/inference_api.py): bearer-token
    checking, the two process-wide values `df` (the patient table) and
    `model` (the loaded model handle), and the health, reload and predict
    endpoints.

    Foreign calls are oracles. `jwt.decode` under the fixed key and
    algorithm is a function from the credential to claims or an error;
    `mlflow.pyfunc.load_model` is the handle it returns, or None when it
    raised; `model.predict` is a function carried by the handle;
    `pd.read_csv` is the table it returns, or the error it raised. */
module InferenceApi {
  import opened Wrappers
  import Vectors

  // ---------------------------------------------------------------------
  // Errors surfaced to the HTTP client
  // ---------------------------------------------------------------------

  /** An HTTPException: a status code and its `detail` text. */
  datatype HttpError = HttpError(status: int, detail: string)

  const Unauthorized: int := 401
  const NotFound: int := 404
  const ServerError: int := 500

  const InvalidTokenDetail := "Invalid or expired token"
  const NotLoadedDetail := "Model or data not loaded"
  const ReloadFailedDetail := "\U{00C9}chec du rechargement du mod\U{00E8}le."
  const ReloadedMessage := "Mod\U{00E8}le recharg\U{00E9} avec succ\U{00E8}s depuis MLflow."
  const PredictionFailedPrefix := "Prediction failed: "
  /** The message numpy raises for an argmax over an empty row. */
  const EmptyArgMaxMessage := "attempt to get argmax of an empty sequence"

  // ---------------------------------------------------------------------
  // Token verification
  // ---------------------------------------------------------------------

  /** What `jwt.decode(token, SECRET_KEY, algorithms=[ALGORITHM])` yields:
      the payload's claims, or a JWTError (bad signature, expired, malformed).
      python-jose itself rejects a `sub` claim that is not a string, so the
      claims the service can see are string-valued. */
  datatype Decoded = Claims(claims: map<string, string>) | DecodeError(reason: string)

  /** The subject the decoded payload names, if any (`payload.get("sub")`). */
  function Subject(d: Decoded): Option<string>
  {
    if d.Claims? && "sub" in d.claims then Some(d.claims["sub"]) else None
  }

  /** verify_token: the caller's username, or a 401 whose detail never
      reveals why the token was refused. */
  function VerifyToken(decode: string -> Decoded, token: string): (r: Result<string, HttpError>)
    ensures r.Success? <==> decode(token).Claims? && Subject(decode(token)).Some? && Subject(decode(token)).value != ""
    ensures r.Success? ==> Subject(decode(token)) == Some(r.value)
    ensures r.Failure? ==> r.error == HttpError(Unauthorized, InvalidTokenDetail)
  {
    match decode(token)
    case DecodeError(_) => Failure(HttpError(Unauthorized, InvalidTokenDetail))
    case Claims(c) =>
      if "sub" in c && c["sub"] != "" then Success(c["sub"])
      else Failure(HttpError(Unauthorized, InvalidTokenDetail))
  }

  /** Two refused tokens are indistinguishable to the caller, whatever the
      underlying decode error was. */
  lemma RefusalsLookAlike(decode: string -> Decoded, t1: string, t2: string)
    requires VerifyToken(decode, t1).Failure? && VerifyToken(decode, t2).Failure?
    ensures VerifyToken(decode, t1) == VerifyToken(decode, t2)
  {
  }

  // ---------------------------------------------------------------------
  // Service state
  // ---------------------------------------------------------------------

  /** One row of the patient table: its `patient_id` and the values of the
      other columns, in column order. */
  datatype Recording = Recording(patientId: int, features: seq<real>)

  /** The table read by `pd.read_csv`: the number of columns in its header
      (patient_id included) and its rows in file order. */
  datatype PatientTable = PatientTable(columns: nat, rows: seq<Recording>)

  /** `df.shape`. */
  function Shape(t: PatientTable): (nat, nat)
  {
    (|t.rows|, t.columns)
  }

  /** A batch of recordings, each reshaped to (timesteps x 1). */
  type Batch = seq<seq<seq<real>>>

  /** A loaded model, known only through `model.predict`: on a batch it
      either raises (with a message) or returns one probability row per
      recording. */
  datatype ModelHandle = ModelHandle(predict: Batch -> Result<seq<seq<real>>, string>)

  /** Why startup aborted. */
  datatype StartupError = PatientFileNotFound | PatientFileUnreadable(reason: string)

  /** The body of the /health response. */
  datatype Health = Health(status: string, modelLoaded: bool, dataLoaded: bool, dataShape: Option<(nat, nat)>)

  /** The body of a successful /predict response. */
  datatype Prediction = Prediction(
    patientId: int,
    totalRecordings: nat,
    epilepticRecordings: seq<nat>,
    predictions: seq<nat>,
    confidenceScores: seq<real>,
    message: string,
    processedBy: string)

  /** The process-wide state of the service: the module-level `df` and
      `model`, both None when the process starts. */
  class Service {
    var df: Option<PatientTable>
    var model: Option<ModelHandle>

    constructor ()
      ensures df == None && model == None
    {
      df := None;
      model := None;
    }

    /** load_best_model_from_mlflow: replaces `model` by the registry's
        handle, or clears it when the load raised. Never raises and never
        touches `df`. */
    method LoadBestModel(registry: Option<ModelHandle>)
      modifies this`model
      ensures model == registry
      ensures df == old(df)
    {
      match registry
      case Some(handle) => model := Some(handle);
      case None => model := None;
    }

    /** startup_event: a missing or unreadable patient file aborts startup
        before the model loader runs, leaving both values as they were;
        otherwise `df` is the table read and the model loader runs, and
        startup succeeds whether or not the model loaded. */
    method Startup(fileExists: bool, read: Result<PatientTable, string>, registry: Option<ModelHandle>)
      returns (r: Result<(), StartupError>)
      modifies this
      ensures !fileExists ==> r == Failure(PatientFileNotFound) && df == old(df) && model == old(model)
      ensures fileExists && read.Failure? ==>
                r == Failure(PatientFileUnreadable(read.error)) && df == old(df) && model == old(model)
      ensures fileExists && read.Success? ==>
                r.Success? && df == Some(read.value) && model == registry
    {
      if !fileExists {
        return Failure(PatientFileNotFound);
      }
      match read
      case Failure(reason) =>
        r := Failure(PatientFileUnreadable(reason));
      case Success(table) =>
        df := Some(table);
        LoadBestModel(registry);
        r := Success(());
    }

    /** health_check: never fails and reports exactly which of the two
        values are present, with the table's shape when it is. */
    method HealthCheck() returns (h: Health)
      ensures h.status == "healthy"
      ensures h.modelLoaded <==> model.Some?
      ensures h.dataLoaded <==> df.Some?
      ensures h.dataShape.Some? <==> df.Some?
      ensures df.Some? ==> h.dataShape == Some((|df.value.rows|, df.value.columns))
    {
      h := Health("healthy", model.Some?, df.Some?, if df.Some? then Some(Shape(df.value)) else None);
    }

    /** reload_model: refuses a bad token before touching anything;
        otherwise reloads, and fails with 500 exactly when no model is held
        afterwards. */
    method ReloadModel(decode: string -> Decoded, token: string, registry: Option<ModelHandle>)
      returns (r: Result<string, HttpError>)
      modifies this`model
      ensures df == old(df)
      ensures VerifyToken(decode, token).Failure? ==>
                r == Failure(VerifyToken(decode, token).error) && model == old(model)
      ensures VerifyToken(decode, token).Success? ==> model == registry
      ensures VerifyToken(decode, token).Success? ==> (r.Failure? <==> model.None?)
      ensures VerifyToken(decode, token).Success? && r.Failure? ==> r.error == HttpError(ServerError, ReloadFailedDetail)
      ensures r.Success? ==> r.value == ReloadedMessage
    {
      var user := VerifyToken(decode, token);
      if user.Failure? {
        return Failure(user.error);
      }
      LoadBestModel(registry);
      if model.None? {
        r := Failure(HttpError(ServerError, ReloadFailedDetail));
      } else {
        r := Success(ReloadedMessage);
      }
    }

    /** predict: refuses a bad token (401), then a service that is not
        ready (500), then a patient with no rows (404); otherwise runs the
        model on the patient's rows and post-processes its output. Changes
        neither `df` nor `model`. */
    method Predict(decode: string -> Decoded, token: string, patientId: int)
      returns (r: Result<Prediction, HttpError>)
      ensures VerifyToken(decode, token).Failure? ==> r == Failure(VerifyToken(decode, token).error)
      ensures VerifyToken(decode, token).Success? && (df.None? || model.None?) ==>
                r == Failure(HttpError(ServerError, NotLoadedDetail))
      ensures VerifyToken(decode, token).Success? && df.Some? && model.Some?
              && PatientRows(df.value.rows, patientId) == [] ==>
                r == Failure(HttpError(NotFound, NoDataDetail(patientId)))
      ensures VerifyToken(decode, token).Success? && df.Some? && model.Some?
              && PatientRows(df.value.rows, patientId) != [] ==>
                r == Infer(model.value, patientId, VerifyToken(decode, token).value, PatientRows(df.value.rows, patientId))
      ensures r.Success? ==> r.value.patientId == patientId && r.value.processedBy == VerifyToken(decode, token).value
    {
      var user := VerifyToken(decode, token);
      if user.Failure? {
        return Failure(user.error);
      }
      if df.None? || model.None? {
        return Failure(HttpError(ServerError, NotLoadedDetail));
      }
      var rows := PatientRows(df.value.rows, patientId);
      if rows == [] {
        return Failure(HttpError(NotFound, NoDataDetail(patientId)));
      }
      r := Infer(model.value, patientId, user.value, rows);
    }
  }

  // ---------------------------------------------------------------------
  // Prediction: row filter, model call and post-processing
  // ---------------------------------------------------------------------

  /** `df[df["patient_id"] == patient_id]`: the patient's rows, in table order. */
  function PatientRows(rows: seq<Recording>, patientId: int): (r: seq<Recording>)
    ensures |r| <= |rows|
    ensures forall x :: x in r <==> x in rows && x.patientId == patientId
    ensures r == [] <==> forall i :: 0 <= i < |rows| ==> rows[i].patientId != patientId
    decreases |rows|
  {
    if rows == [] then []
    else (if rows[0].patientId == patientId then [rows[0]] else []) + PatientRows(rows[1..], patientId)
  }

  /** The filter keeps table order: filtering a table split in two is
      filtering each part and concatenating. */
  lemma {:induction false} PatientRowsKeepsOrder(a: seq<Recording>, b: seq<Recording>, patientId: int)
    ensures PatientRows(a + b, patientId) == PatientRows(a, patientId) + PatientRows(b, patientId)
    decreases |a|
  {
    if a == [] {
      assert a + b == b;
    } else {
      assert (a + b)[1..] == a[1..] + b;
      PatientRowsKeepsOrder(a[1..], b, patientId);
    }
  }

  /** `df_patient.drop(columns=["patient_id"]).values.reshape(N, F, 1)`:
      each value becomes a one-element timestep. */
  function ToBatch(rows: seq<Recording>): (x: Batch)
    ensures |x| == |rows|
    ensures forall i :: 0 <= i < |rows| ==> |x[i]| == |rows[i].features|
  {
    seq(|rows|, i requires 0 <= i < |rows| =>
      seq(|rows[i].features|, j requires 0 <= j < |rows[i].features| => [rows[i].features[j]]))
  }

  /** The reshape only adds a trailing unit dimension: each value sits,
      alone, at the same row and column. */
  lemma ToBatchKeepsValues(rows: seq<Recording>, i: nat, j: nat)
    requires i < |rows| && j < |rows[i].features|
    ensures ToBatch(rows)[i][j] == [rows[i].features[j]]
  {
  }

  /** The body of predict's `try` block: a model error or an argmax over an
      empty row becomes a 500 carrying the underlying message. */
  function Infer(m: ModelHandle, patientId: int, username: string, rows: seq<Recording>): (r: Result<Prediction, HttpError>)
    ensures r.Failure? ==> r.error.status == ServerError
    ensures m.predict(ToBatch(rows)).Failure? ==>
              r == Failure(HttpError(ServerError, PredictionFailedPrefix + m.predict(ToBatch(rows)).error))
    ensures m.predict(ToBatch(rows)).Success? && !NoEmptyRow(m.predict(ToBatch(rows)).value) ==>
              r == Failure(HttpError(ServerError, PredictionFailedPrefix + EmptyArgMaxMessage))
    ensures r.Success? <==> m.predict(ToBatch(rows)).Success? && NoEmptyRow(m.predict(ToBatch(rows)).value)
    ensures r.Success? ==> r.value == Respond(patientId, username, m.predict(ToBatch(rows)).value)
  {
    match m.predict(ToBatch(rows))
    case Failure(e) => Failure(HttpError(ServerError, PredictionFailedPrefix + e))
    case Success(preds) =>
      if NoEmptyRow(preds) then Success(Respond(patientId, username, preds))
      else Failure(HttpError(ServerError, PredictionFailedPrefix + EmptyArgMaxMessage))
  }

  predicate NoEmptyRow(preds: seq<seq<real>>)
  {
    forall i :: 0 <= i < |preds| ==> |preds[i]| > 0
  }

  /** `np.argmax(preds, axis=1)`. */
  function PredictedClasses(preds: seq<seq<real>>): (c: seq<nat>)
    requires NoEmptyRow(preds)
    ensures |c| == |preds|
    ensures forall i :: 0 <= i < |preds| ==> Vectors.IsFirstMaxIndex(preds[i], c[i])
  {
    seq(|preds|, i requires 0 <= i < |preds| => Vectors.FirstArgMax(preds[i]))
  }

  /** `preds.max(axis=1)`. */
  function ConfidenceScores(preds: seq<seq<real>>): (s: seq<real>)
    requires NoEmptyRow(preds)
    ensures |s| == |preds|
    ensures forall i :: 0 <= i < |preds| ==> s[i] in preds[i]
    ensures forall i, j :: 0 <= i < |preds| && 0 <= j < |preds[i]| ==> preds[i][j] <= s[i]
  {
    seq(|preds|, i requires 0 <= i < |preds| => Vectors.RowMax(preds[i]))
  }

  predicate StrictlyIncreasing(xs: seq<nat>)
  {
    forall i, j :: 0 <= i < j < |xs| ==> xs[i] < xs[j]
  }

  /** `[i+1 for i, c in enumerate(pred_classes) if c == 1]`: 1-based
      positions of recordings predicted epileptic, in increasing order
      (EpilepticRowsComplete shows that none is missing). */
  function EpilepticRows(classes: seq<nat>): (e: seq<nat>)
    ensures |e| <= |classes|
    ensures forall i :: 0 <= i < |e| ==> 1 <= e[i] <= |classes| && classes[e[i] - 1] == 1
    ensures StrictlyIncreasing(e)
    decreases |classes|
  {
    if classes == [] then []
    else
      var n := |classes|;
      var earlier := EpilepticRows(classes[..n - 1]);
      earlier + (if classes[n - 1] == 1 then [n] else [])
  }

  /** Every recording predicted epileptic is listed. */
  lemma {:induction false} EpilepticRowsComplete(classes: seq<nat>)
    ensures forall k :: 1 <= k <= |classes| && classes[k - 1] == 1 ==> k in EpilepticRows(classes)
    decreases |classes|
  {
    if classes != [] {
      var n := |classes|;
      var front := classes[..n - 1];
      EpilepticRowsComplete(front);
      forall k | 1 <= k <= n && classes[k - 1] == 1 ensures k in EpilepticRows(classes) {
        if k < n {
          assert front[k - 1] == 1;
        }
      }
    }
  }

  /** `str(n)` for an int. */
  function IntToString(n: int): string
  {
    if n < 0 then "-" + NatToString(-n) else NatToString(n)
  }

  function NatToString(n: nat): string
    decreases n
  {
    var d := ["0", "1", "2", "3", "4", "5", "6", "7", "8", "9"][n % 10];
    if n < 10 then d else NatToString(n / 10) + d
  }

  /** `str(xs)` for a list of ints: `[1, 5, 7]`. */
  function ListToString(xs: seq<nat>): string
  {
    "[" + JoinNats(xs) + "]"
  }

  function JoinNats(xs: seq<nat>): string
    decreases |xs|
  {
    if xs == [] then ""
    else if |xs| == 1 then NatToString(xs[0])
    else NatToString(xs[0]) + ", " + JoinNats(xs[1..])
  }

  function PatientPrefix(patientId: int): string
  {
    " Patient " + IntToString(patientId)
  }

  function NoDataDetail(patientId: int): string
  {
    "No data found for patient " + IntToString(patientId)
  }

  function EpilepticMessage(patientId: int, rows: seq<nat>): string
  {
    PatientPrefix(patientId) + " predicted epileptic recordings at rows: " + ListToString(rows)
  }

  function NonEpilepticMessage(patientId: int): string
  {
    PatientPrefix(patientId) + " predicted as non-epileptic in all recordings."
  }

  /** The two summary texts are never the same. */
  lemma {:induction false} MessagesDiffer(patientId: int, rows: seq<nat>)
    ensures EpilepticMessage(patientId, rows) != NonEpilepticMessage(patientId)
  {
    var p := PatientPrefix(patientId);
    var k := |p| + 11;
    assert EpilepticMessage(patientId, rows)[k] == 'e';
    assert NonEpilepticMessage(patientId)[k] == 'a';
  }

  /** The response built from the model's output `preds` (one non-empty
      probability row per recording). */
  function Respond(patientId: int, username: string, preds: seq<seq<real>>): (p: Prediction)
    requires NoEmptyRow(preds)
    ensures p.patientId == patientId && p.processedBy == username
    ensures p.totalRecordings == |preds| == |p.predictions| == |p.confidenceScores|
    ensures forall i :: 0 <= i < |preds| ==>
              Vectors.IsFirstMaxIndex(preds[i], p.predictions[i]) && p.confidenceScores[i] == preds[i][p.predictions[i]]
    ensures forall i :: 0 <= i < |p.epilepticRecordings| ==>
              1 <= p.epilepticRecordings[i] <= |preds| && p.predictions[p.epilepticRecordings[i] - 1] == 1
    ensures forall k :: 1 <= k <= |preds| && p.predictions[k - 1] == 1 ==> k in p.epilepticRecordings
    ensures StrictlyIncreasing(p.epilepticRecordings)
    ensures p.message == NonEpilepticMessage(patientId) <==> p.epilepticRecordings == []
    ensures p.epilepticRecordings != [] ==> p.message == EpilepticMessage(patientId, p.epilepticRecordings)
  {
    var classes := PredictedClasses(preds);
    var scores := ConfidenceScores(preds);
    var epileptic := EpilepticRows(classes);
    EpilepticRowsComplete(classes);
    MessagesDiffer(patientId, epileptic);
    assert forall i :: 0 <= i < |preds| ==> scores[i] == preds[i][classes[i]] by {
      forall i | 0 <= i < |preds| ensures scores[i] == preds[i][classes[i]] {
        Vectors.RowMaxAtArgMax(preds[i]);
      }
    }
    Prediction(
      patientId,
      |classes|,
      epileptic,
      classes,
      scores,
      if epileptic != [] then EpilepticMessage(patientId, epileptic) else NonEpilepticMessage(patientId),
      username)
  }

  /** For a model that returns one row per recording, a patient with N
      matching rows gets N predictions, and every confidence score is a
      probability when the model's outputs are. */
  lemma {:induction false} ResponseCoversEveryRecording(m: ModelHandle, patientId: int, username: string, rows: seq<Recording>)
    requires m.predict(ToBatch(rows)).Success?
    requires |m.predict(ToBatch(rows)).value| == |rows|
    requires NoEmptyRow(m.predict(ToBatch(rows)).value)
    requires forall i, j :: 0 <= i < |rows| && 0 <= j < |m.predict(ToBatch(rows)).value[i]| ==>
               0.0 <= m.predict(ToBatch(rows)).value[i][j] <= 1.0
    ensures Infer(m, patientId, username, rows).Success?
    ensures Infer(m, patientId, username, rows).value.totalRecordings == |rows|
    ensures forall i :: 0 <= i < |rows| ==> 0.0 <= Infer(m, patientId, username, rows).value.confidenceScores[i] <= 1.0
    ensures forall i :: 0 <= i < |Infer(m, patientId, username, rows).value.epilepticRecordings| ==>
              1 <= Infer(m, patientId, username, rows).value.epilepticRecordings[i] <= |rows|
  {
    var preds := m.predict(ToBatch(rows)).value;
    var p := Infer(m, patientId, username, rows).value;
    forall i | 0 <= i < |rows| ensures 0.0 <= p.confidenceScores[i] <= 1.0 {
      assert p.confidenceScores[i] == preds[i][p.predictions[i]];
    }
  }

  // ---------------------------------------------------------------------
  // Lifecycle scenarios
  // ---------------------------------------------------------------------

  /** A failed reload discards a model that was loaded before: health then
      reports the model as absent and predict refuses with 500. */
  method FailedReloadDowngrades(s: Service, decode: string -> Decoded, token: string, patientId: int)
    returns (h: Health, p: Result<Prediction, HttpError>)
    requires s.df.Some? && s.model.Some?
    requires VerifyToken(decode, token).Success?
    modifies s
    ensures !h.modelLoaded && h.dataLoaded
    ensures p == Failure(HttpError(ServerError, NotLoadedDetail))
  {
    var r := s.ReloadModel(decode, token, None);
    assert r.Failure?;
    h := s.HealthCheck();
    p := s.Predict(decode, token, patientId);
  }

  /** A missing patient file leaves a fresh service with no model: the
      model loader is never reached. */
  method MissingPatientFileLeavesNoModel(read: Result<PatientTable, string>, registry: Option<ModelHandle>)
    returns (h: Health)
    ensures !h.modelLoaded && !h.dataLoaded && h.dataShape == None
  {
    var s := new Service();
    var r := s.Startup(false, read, registry);
    h := s.HealthCheck();
  }
}
