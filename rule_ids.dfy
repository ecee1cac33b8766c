/** The identifiers of the eight hazard rules. */
module RuleIds {

  const PY001 := "PY001_MUTABLE_MODULE_STATE"
  const PY002 := "PY002_NON_IDEMPOTENT_INIT"
  const PY003 := "PY003_BACKGROUND_THREADS"
  const PY004 := "PY004_OPEN_SOCKETS_FILES"
  const PY005 := "PY005_RANDOM_TIME_UUID_AT_INIT"
  const PY006 := "PY006_BOTO3_CLIENT_AT_INIT"
  const PY007 := "PY007_TMP_FILES_CREDS_AT_INIT"
  const PY008 := "PY008_MISSING_RUNTIME_HOOKS"

  /** The rules a per-statement check can report (everything except the meta-rule). */
  const StatementRules: set<string> := {PY001, PY002, PY003, PY004, PY005, PY006, PY007}

  /** The rules whose findings make the missing-hooks meta-rule fire. */
  const HazardousRules: set<string> := {PY002, PY003, PY004, PY006, PY007}

  /** The meta-rule is not a statement rule, so a statement check never reports it. */
  lemma MetaRuleSeparate()
    ensures PY008 !in StatementRules
  {
    assert PY008[4] == '8';
  }
}
