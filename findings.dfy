/** The record the scanner reports per hazard, its dictionary form, and the mapping from a
    list of findings to the process exit code. */
module Findings {
  import opened Wrappers
  import opened Text

  /** One detected hazard: which rule, at what severity, where, and the offending line. */
  datatype Finding = Finding(
    ruleId: string,
    level: string,
    message: string,
    filename: string,
    lineno: int,
    col: int,
    code: string)

  /** A field value of the dictionary form. */
  datatype FieldValue = Str(text: string) | Int(number: int)

  const FieldNames: set<string> := {"rule_id", "level", "message", "filename", "lineno", "col", "code"}

  /** Reads a finding back from its dictionary form, the partner of `ToDict`: every field
      but `code` must be present with the right kind of value; a missing `code` reads as the
      empty string. */
  function FromDict(d: map<string, FieldValue>): Option<Finding> {
    if && "rule_id" in d && d["rule_id"].Str?
       && "level" in d && d["level"].Str?
       && "message" in d && d["message"].Str?
       && "filename" in d && d["filename"].Str?
       && "lineno" in d && d["lineno"].Int?
       && "col" in d && d["col"].Int?
       && ("code" in d ==> d["code"].Str?)
    then
      Some(Finding(d["rule_id"].text, d["level"].text, d["message"].text, d["filename"].text,
                   d["lineno"].number, d["col"].number,
                   if "code" in d then d["code"].text else ""))
    else None
  }

  /** The dictionary form of a finding: exactly the seven fields, and reading it back gives
      the same finding, so no value is altered. */
  function ToDict(f: Finding): (d: map<string, FieldValue>)
    ensures d.Keys == FieldNames
    ensures FromDict(d) == Some(f)
  {
    map["rule_id" := Str(f.ruleId), "level" := Str(f.level), "message" := Str(f.message),
        "filename" := Str(f.filename), "lineno" := Int(f.lineno), "col" := Int(f.col),
        "code" := Str(f.code)]
  }

  /** `any(f.level.upper() == "ERROR" for f in findings)`. */
  function AnyError(findings: seq<Finding>): (r: bool)
    ensures r <==> exists i :: 0 <= i < |findings| && Upper(findings[i].level) == "ERROR"
  {
    if findings == [] then false
    else Upper(findings[0].level) == "ERROR" || AnyError(findings[1..])
  }

  /** The exit status for a list of findings under the `exit_on` policy. */
  function ExitCode(findings: seq<Finding>, exitOn: string): (r: int)
    ensures r in {0, 1, 2}
    ensures exitOn == "NEVER" ==> r == 0
    ensures exitOn == "ERROR" ==>
      r != 1 && (r == 2 <==> exists i :: 0 <= i < |findings| && Upper(findings[i].level) == "ERROR")
    ensures exitOn == "WARN" ==> r != 2 && (r == 1 <==> findings != [])
    ensures exitOn !in {"NEVER", "ERROR", "WARN"} ==> r == 0
  {
    if exitOn == "NEVER" then 0
    else if exitOn == "ERROR" then (if AnyError(findings) then 2 else 0)
    else if exitOn == "WARN" then (if findings != [] then 1 else 0)
    else 0
  }
}
