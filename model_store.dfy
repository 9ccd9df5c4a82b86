/**
 * src/model_store.py: the process-wide dict `models` and `initialize_models`,
 * which fills its two slots from the joblib files in the models directory.
 */
module ModelStore {
  import opened Wrappers
  import opened Exceptions

  /** An object deserialised by joblib (the fitted scaler or the classifier).
      It is opaque here: what it does is given by the collaborators that use it. */
  datatype Artifact = Artifact(handle: nat)

  /** The filesystem and joblib, as seen by `initialize_models`:
      `os.path.exists` and `joblib.load`. */
  datatype Storage = Storage(pathExists: string -> bool, load: string -> Result<Artifact, Exn>)

  const ScalerKey: string := "scaler"
  const ModelKey: string := "ml_model"
  const MissingFilesMessage: string := "Model files not found in the specified path."

  function ScalerPath(modelsPath: string): string {
    modelsPath + "/scaler_object.joblib"
  }

  function ModelPath(modelsPath: string): string {
    modelsPath + "/random_forest.joblib"
  }

  /** Both artifacts are files directly inside the models directory, and they
      are two different files. */
  lemma ArtifactPaths(modelsPath: string)
    ensures ScalerPath(modelsPath)[..|modelsPath| + 1] == modelsPath + "/"
    ensures ModelPath(modelsPath)[..|modelsPath| + 1] == modelsPath + "/"
    ensures '/' !in ScalerPath(modelsPath)[|modelsPath| + 1..]
    ensures '/' !in ModelPath(modelsPath)[|modelsPath| + 1..]
    ensures ScalerPath(modelsPath) != ModelPath(modelsPath)
  {
    var n := |modelsPath|;
    InsideDirectory(modelsPath, "scaler_object.joblib");
    InsideDirectory(modelsPath, "random_forest.joblib");
    assert ScalerPath(modelsPath)[n + 1] == 's';
    assert ModelPath(modelsPath)[n + 1] == 'r';
  }

  /** `dir/name` is the directory, a '/', then the name. */
  lemma InsideDirectory(dir: string, name: string)
    ensures (dir + "/" + name)[..|dir| + 1] == dir + "/"
    ensures (dir + "/" + name)[|dir| + 1..] == name
  {
  }

  /** The module-level dict `models`. */
  class Models {
    var slots: map<string, Artifact>

    /** What `initialize_models`, the only writer, keeps true: no key but the
        two slot names, and the model slot is never filled without the scaler slot. */
    ghost predicate Valid()
      reads this
    {
      && slots.Keys <= {ScalerKey, ModelKey}
      && (ModelKey in slots ==> ScalerKey in slots)
    }

    /** `models = {}` at import time. */
    constructor ()
      ensures Valid()
      ensures slots == map[]
    {
      slots := map[];
    }

    /** `initialize_models()`: if both files exist, loads the scaler and then the
        classifier into their slots; otherwise raises FileNotFoundError. Every
        exception is re-raised unchanged, so a classifier load that fails leaves
        the scaler slot written. */
    method InitializeModels(storage: Storage, modelsPath: string) returns (r: Outcome<Exn>)
      modifies this
      ensures old(Valid()) ==> Valid()
      ensures var sp, mp := ScalerPath(modelsPath), ModelPath(modelsPath);
        if !(storage.pathExists(sp) && storage.pathExists(mp)) then
          r == Fail(FileNotFoundError(MissingFilesMessage)) && slots == old(slots)
        else if storage.load(sp).Failure? then
          r == Fail(storage.load(sp).error) && slots == old(slots)
        else if storage.load(mp).Failure? then
          r == Fail(storage.load(mp).error) && slots == old(slots)[ScalerKey := storage.load(sp).value]
        else
          r == Pass && slots == old(slots)[ScalerKey := storage.load(sp).value][ModelKey := storage.load(mp).value]
      ensures r == Pass ==> ScalerKey in slots && ModelKey in slots
      ensures forall k :: k != ScalerKey && k != ModelKey ==> (k in slots <==> k in old(slots))
      ensures forall k :: k in old(slots) && k != ScalerKey && k != ModelKey ==> slots[k] == old(slots)[k]
    {
      var scalerPath := ScalerPath(modelsPath);
      var mlModelPath := ModelPath(modelsPath);
      if storage.pathExists(scalerPath) && storage.pathExists(mlModelPath) {
        var scaler := storage.load(scalerPath);
        if scaler.Failure? {
          return Fail(scaler.error);
        }
        slots := slots[ScalerKey := scaler.value];
        var model := storage.load(mlModelPath);
        if model.Failure? {
          return Fail(model.error);
        }
        slots := slots[ModelKey := model.value];
        r := Pass;
      } else {
        r := Fail(FileNotFoundError(MissingFilesMessage));
      }
    }
  }
}
