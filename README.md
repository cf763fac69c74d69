# Epilepsy MLOps: inference service and dataset preparation, modelled in Dafny

This project models the two pieces of logic in the epilepsy-detection MLOps
repository that can be stated precisely. It proves what they promise.

- **The inference service** (`services/inference/inference_api.py`), in
  `inference.dfy`, module `InferenceApi`.
  - The service holds two process-wide values: the patient table `df` and
    the model handle `model`. They are the fields of the class `Service`.
  - Loading, startup and reload are methods that change those fields.
    Health and predict are methods that only read them.
  - Bearer-token checking is a function. So is the post-processing of the
    model's output: argmax per row, maximum per row, the 1-based list of
    epileptic recordings, and the summary message.
- **The dataset preparation script** (`services/preprocessing/preprocessing.py`),
  in `preprocessing.dfy`, module `Preprocessing`.
  - Every step from line 68 on is a pure function over the table's rows:
    - drop the first column;
    - binarise the label;
    - split the table into the two label groups;
    - draw 400 rows from each group and shuffle them into an 800-row pool;
    - one-hot encode the labels;
    - split the pool 80/20;
    - reshape to `(-1, 178, 1)`;
    - keep the remaining rows.
  - `Prepare` composes these steps.
- **Shared modules.**
  - `vectors.dfy`, module `Vectors`: numpy's per-row `argmax` and `max`.
    `argmax` returns the first index of the maximum.
  - `wrappers.dfy`, module `Wrappers`: `Option` and `Result`.

## How foreign calls are modelled

Foreign calls are parameters of the model.

- **`jwt.decode`** under the fixed key and algorithm is a function
  `decode: string -> Decoded`. It yields string-valued claims or a decode
  error.
- **`mlflow.pyfunc.load_model`** is an `Option<ModelHandle>`. `None` means
  the load raised.
- **`model.predict`** is a function carried by the handle. It either raises
  with a message or returns a list of probability rows. A well-behaved
  model returns one row per recording; the response counts whatever rows
  come back, as `len(pred_classes)` does.
- **`os.path.exists` and `pd.read_csv`** of the patient file are a boolean
  and a `Result`.
- **The random draws** in the preparation script are one oracle,
  `rng(m)`, which gives a permutation of `0..m-1`. Every draw reseeds with
  42, and each one is a permutation of its population:
  - `sample(n=400)` takes the first 400 entries of the permutation of the
    group;
  - `sample(frac=1)` takes the whole permutation of the pool;
  - `train_test_split` takes the first 160 entries of the permutation of
    the pool as test rows and the other 640 as train rows.

  Because `rng` is a function, equal population sizes give the same draw,
  as the fixed seed does. The script is also deterministic: `Prepare` is a
  function of the raw table and the oracle.

## Behaviour of the code worth knowing

- **Status when the service is not ready.** `predict` answers 500, with
  the detail "Model or data not loaded", when the table or the model is
  absent (`inference_api.py:100-101`).
- **Which rows are kept for serving.** `reset_index(drop=True)` (line 82)
  renumbers the pool 0..799, so `df.drop(df_train.index)` (line 102)
  removes the table's first 800 rows, whichever rows were sampled. The kept
  rows are those from position 800 onward, n - 800 of them
  (`Preprocessing.RemainingIsSuffix`), not the rows left out of the pool.
  They still carry the binarised label column. The model states this as
  written.

## Model

| member | source | states |
|---|---|---|
| Vectors.FirstArgMax | services/inference/inference_api.py:116 | the index is in range, holds a maximum of the row, and every earlier entry is strictly smaller (numpy's first-maximum rule) |
| Vectors.FirstMaxIndexUnique | services/inference/inference_api.py:116 | those properties determine the argmax: any index having them is the one `FirstArgMax` returns |
| Vectors.RowMax | services/inference/inference_api.py:134 | the row maximum is an entry of the row and bounds every entry |
| Vectors.RowMaxAtArgMax | services/inference/inference_api.py:134 | the row maximum is the entry at the argmax, so the confidence score is the predicted class's score |
| InferenceApi.VerifyToken | services/inference/inference_api.py:25-35 | success iff decoding succeeds and `sub` is present and non-empty; success returns that subject; every refusal is 401 "Invalid or expired token" |
| InferenceApi.RefusalsLookAlike | services/inference/inference_api.py:33-35 | two refused tokens get identical errors, whatever the decode error was |
| InferenceApi.Service.constructor | services/inference/inference_api.py:41-42 | a fresh process holds neither table nor model |
| InferenceApi.Service.LoadBestModel | services/inference/inference_api.py:45-57 | `model` becomes the registry's handle, or None when the load raised, even if a model was held before; `df` is untouched; it never fails |
| InferenceApi.Service.Startup | services/inference/inference_api.py:59-75 | a missing or unreadable file fails startup before the model loader runs and leaves both values unchanged; otherwise `df` is the table read, `model` is the load result, and startup succeeds with or without a model |
| InferenceApi.Service.HealthCheck | services/inference/inference_api.py:77-85 | always "healthy"; model_loaded iff a model is held; data_loaded iff a table is held; the shape (rows, columns) is given exactly when a table is held |
| InferenceApi.Service.ReloadModel | services/inference/inference_api.py:87-94 | a bad token gets 401 and changes nothing; otherwise `model` becomes the load result, and the call fails with 500 exactly when no model is held afterwards; `df` is untouched |
| InferenceApi.Service.Predict | services/inference/inference_api.py:96-141 | guard order 401, then 500 when table or model is absent, then 404 with the patient's id when no row matches; otherwise the result of running the model on the patient's rows; changes neither value |
| InferenceApi.PatientRows | services/inference/inference_api.py:103-104 | keeps exactly the rows with the requested id; empty iff no row has that id |
| InferenceApi.PatientRowsKeepsOrder | services/inference/inference_api.py:103 | the filter keeps table order: filtering a concatenation concatenates the filtered parts |
| InferenceApi.ToBatch | services/inference/inference_api.py:108-111 | one entry per row, and one timestep per feature value |
| InferenceApi.ToBatchKeepsValues | services/inference/inference_api.py:111 | the reshape puts each value alone at its own row and column |
| InferenceApi.Infer | services/inference/inference_api.py:107-141 | every failure is a 500 whose detail is "Prediction failed: " followed by the model's error message, or by numpy's empty-argmax message when an output row is empty; success iff the model returns and no output row is empty; on success the result is the response built from the model's output |
| InferenceApi.PredictedClasses | services/inference/inference_api.py:116 | one class per output row, each the first index of the row's maximum |
| InferenceApi.ConfidenceScores | services/inference/inference_api.py:134 | one score per output row, each an entry of that row and its maximum |
| InferenceApi.EpilepticRows | services/inference/inference_api.py:119 | every listed position k is in 1..N with class 1 at k-1; the list is strictly increasing and no longer than the input |
| InferenceApi.EpilepticRowsComplete | services/inference/inference_api.py:119 | every position whose class is 1 is listed |
| InferenceApi.MessagesDiffer | services/inference/inference_api.py:121-125 | the epileptic and non-epileptic summary texts never coincide |
| InferenceApi.Respond | services/inference/inference_api.py:116-137 | id and caller echoed; N predictions and N scores for N output rows; each prediction is the row's first argmax and each score the value there; the epileptic list is exactly the 1-based positions of class 1, strictly increasing; the message is the non-epileptic text iff that list is empty, and the listing text otherwise |
| InferenceApi.ResponseCoversEveryRecording | services/inference/inference_api.py:115-134 | a model returning one non-empty probability row per recording yields a response covering all N recordings, with every score a probability and every listed position in 1..N |
| InferenceApi.FailedReloadDowngrades | services/inference/inference_api.py:87-101 | a failed reload discards a loaded model: health then reports no model and predict refuses with 500 |
| InferenceApi.MissingPatientFileLeavesNoModel | services/inference/inference_api.py:59-75 | on a fresh service, a missing patient file leaves neither model nor table |
| Preprocessing.DropFirstColumn | services/preprocessing/preprocessing.py:68 | every row loses its first cell and keeps the rest in order; a table with no column is unchanged |
| Preprocessing.BinariseLabels | services/preprocessing/preprocessing.py:70 | every label becomes 0 or 1; it is 1 iff the original label was 1; features unchanged |
| Preprocessing.RowsLabelled | services/preprocessing/preprocessing.py:72-73 | every row of a group carries the group's label, and the group is no larger than the table |
| Preprocessing.RowsLabelledMembers | services/preprocessing/preprocessing.py:72-73 | a group holds exactly the table's rows with that label |
| Preprocessing.LabelGroupsPartition | services/preprocessing/preprocessing.py:72-73 | with binary labels, the two groups together hold every row exactly as often as the table does |
| Preprocessing.SelectMultiset | services/preprocessing/preprocessing.py:77-82 | drawing at distinct positions draws no row more often than the table holds it; drawing every position reorders the table |
| Preprocessing.Sample | services/preprocessing/preprocessing.py:77-78 | a group of fewer than 400 rows is an error naming the class and size; otherwise 400 rows drawn from the group |
| Preprocessing.BalancedPool | services/preprocessing/preprocessing.py:80-82 | the shuffled pool has 800 rows and is a reordering of the two samples together |
| Preprocessing.PoolIndex | services/preprocessing/preprocessing.py:82 | after `reset_index(drop=True)` the pool's index labels are 0..799 |
| Preprocessing.FeatureMatrix | services/preprocessing/preprocessing.py:84 | each row's features are the row without its label, row by row |
| Preprocessing.LabelColumn | services/preprocessing/preprocessing.py:85 | each entry is its row's label, row by row |
| Preprocessing.OneHot | services/preprocessing/preprocessing.py:87 | two columns: 1 in the label's class column and 0 in the other |
| Preprocessing.OneHotRoundTrip | services/preprocessing/preprocessing.py:87 | the argmax of a one-hot target is its class |
| Preprocessing.ToCategorical | services/preprocessing/preprocessing.py:87 | one one-hot target per label, row by row |
| Preprocessing.TrainTestSplit | services/preprocessing/preprocessing.py:89-91 | 640 train and 160 test rows; each split row is the pool row at its permutation position, features and target together; train and test are a reordering of the pool |
| Preprocessing.SplitIsPermutation | services/preprocessing/preprocessing.py:89-91 | the train and test (feature, target) pairs are a reordering of the pool's pairs, and so are the targets alone |
| Preprocessing.Reshape | services/preprocessing/preprocessing.py:93-94 | succeeds iff 178 divides the element count; otherwise an error with that count; on success, block i, step j holds element i*178+j in row-major order |
| Preprocessing.FlattenAt | services/preprocessing/preprocessing.py:93-94 | rows of 178 values flatten with row i's value j at position i*178+j |
| Preprocessing.ReshapeRowwise | services/preprocessing/preprocessing.py:93-94 | on rows of 178 values the reshape succeeds, keeps the row count and every value's row and position, and adds only a unit dimension |
| Preprocessing.DropIndex | services/preprocessing/preprocessing.py:102 | fails iff some listed label is not in the table's index; on success every kept row sits at an unlisted position, and every row at an unlisted position is kept |
| Preprocessing.UnlistedSound | services/preprocessing/preprocessing.py:102 | every row the drop keeps sits at a position whose label is not listed |
| Preprocessing.UnlistedComplete | services/preprocessing/preprocessing.py:102 | every row at a position whose label is not listed is kept |
| Preprocessing.UnlistedRange | services/preprocessing/preprocessing.py:102 | dropping labels 0..m-1 keeps exactly the rows from position m on |
| Preprocessing.RemainingIsSuffix | services/preprocessing/preprocessing.py:102 | dropping the renumbered pool's labels from a table of n ≥ 800 rows succeeds and keeps rows 800.. in order, n-800 of them |
| Preprocessing.Cleaned | services/preprocessing/preprocessing.py:68-70 | one fewer column; binary labels, 1 iff the raw label was 1; features are the raw row without its first and last cells |
| Preprocessing.PoolIsBalanced | services/preprocessing/preprocessing.py:77-87 | the shuffled pool carries 400 labels 1 and 400 labels 0, and its one-hot targets are 400 of each class |
| Preprocessing.DrawPool | services/preprocessing/preprocessing.py:72-82 | success iff both groups have at least 400 rows, with the label-1 group checked first; the pool has 800 rows drawn from the table, each no more often than the table holds it; rows keep their width; 400 labels of each class |
| Preprocessing.Encode | services/preprocessing/preprocessing.py:84-91 | each train and test row holds the features and the one-hot target of the pool row at its permutation position; train and test targets together are the pool's targets |
| Preprocessing.Prepare | services/preprocessing/preprocessing.py:68-102 | fewer than 2 raw columns fails on the label column; success iff both classes have ≥ 400 rows and 178 divides both feature blocks; 640/160 targets, together exactly 400 `[0, 1]` rows and 400 `[1, 0]` rows; reshaped row counts match; the remaining table is the cleaned table from row 800 on |

## Left out

- JWT cryptography: signature checking, expiry and the HS256 key are
  inside the `decode` parameter. python-jose's rejection of a non-string
  `sub` is folded into it too: claims are string-valued.
- The MLflow registry: the tracking URI, the model name and
  `pyfunc.load_model` are inside the `Option<ModelHandle>` parameter.
- TensorFlow inference: `model.predict` is the handle's function.
  Probabilities are exact reals, so floating-point rounding and NaN
  ordering in numpy's argmax and max are not modelled.
- HTTP plumbing: FastAPI routing, `HTTPBearer`, a missing Authorization
  header, 422 answers for a non-integer `patient_id`, and JSON
  serialisation. Errors are an `HttpError(status, detail)` value.
- File I/O and logging: `read_csv`, `np.save`, `to_csv`, path
  construction, `print` and `logger` calls. This includes the script's
  first read at lines 53-58, which line 62 repeats.
- Concurrency: the module-level state has no locking, and a reload racing
  a predict is not modelled.
- The CSV handoff between the two services: no code connects the file the
  script writes with the file the service reads.
- A patient table without a `patient_id` column: every `Recording` carries
  a patient id, so the model assumes the column exists. Without it,
  `df["patient_id"]` at `inference_api.py:103` raises a KeyError outside
  the `try` block, and the request fails with an unhandled 500 before the
  404 guard.
- Rectangular patient tables: `PatientTable` does not require every row to have the same length.
  `ToBatch` reshapes each row by its own length.
- Preprocessing.TrainTestSplit: the test size is the constant 160, which is
  what `ceil(0.2 * 800)` gives. The floating-point product is not
  modelled, and neither are pools of other sizes.
- Preprocessing.Prepare: it states the reshaped arrays' row counts through
  `rows * 178 == 640 * (width - 2)` (and 160 for test). Their cell-by-cell
  contents are stated by `ReshapeRowwise` and `Encode`, not by `Prepare`.
- pandas dtypes: a CSV value is a number or a text. pandas dtype
  inference and the numeric label comparison `x == 1` on mixed types are
  reduced to equality with the number 1.
