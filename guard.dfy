/** The activation guard of the runtime (`bv/runtime/_guard.py`): the runtime
    surface may be used only under `bv run` (the `BV_SDK_RUN` marker set to
    "1") or inside a runner context. */
module Guard {
  import opened Common
  import opened PyData
  import Auth

  const SdkRunMarker: string := "BV_SDK_RUN"

  /** The `RuntimeError` raised outside both activation paths. */
  datatype GuardError = NotActivated

  /** `require_bv_run`: passes when the marker is exactly "1"; otherwise the
      runner store is looked up and the guard passes when this process has a row. */
  function RequireBvRun(env: Environ, db: Auth.RunnerDb, pid: int): (r: Outcome<GuardError>)
    ensures r.Pass? <==>
      || (SdkRunMarker in env && env[SdkRunMarker] == "1")
      || (db.Db? && exists i :: 0 <= i < |db.rows| && db.rows[i].pid == pid)
    ensures r.Fail? ==> r.error == NotActivated
  {
    if EnvGet(env, SdkRunMarker) != Some("1") && !Auth.HasRunnerContext(db, pid) then
      Fail(NotActivated)
    else
      Pass
  }

  /** With the marker set to "1" the runner store is never looked up: whatever
      it holds, the verdict is the same. */
  lemma MarkerShortCircuits(env: Environ, db1: Auth.RunnerDb, db2: Auth.RunnerDb, pid1: int, pid2: int)
    requires EnvGet(env, SdkRunMarker) == Some("1")
    ensures RequireBvRun(env, db1, pid1) == RequireBvRun(env, db2, pid2) == Pass
  {
  }

  /** A runner context activates the runtime whatever the marker says. */
  lemma RunnerContextSuffices(env: Environ, db: Auth.RunnerDb, pid: int)
    requires Auth.LoadRunnerContext(db, pid).Some?
    ensures RequireBvRun(env, db, pid) == Pass
  {
  }

  /** Only the exact text "1" counts as the marker: "true", "0" and an absent
      variable all leave the decision to the runner store. */
  lemma OtherMarkersRefused(env: Environ, db: Auth.RunnerDb, pid: int)
    requires !Auth.HasRunnerContext(db, pid)
    ensures RequireBvRun(env[SdkRunMarker := "true"], db, pid) == Fail(NotActivated)
    ensures RequireBvRun(env[SdkRunMarker := "0"], db, pid) == Fail(NotActivated)
    ensures RequireBvRun(env - {SdkRunMarker}, db, pid) == Fail(NotActivated)
  {
    assert "true" != "1" && "0" != "1";
  }
}
