/** The second set of notification / CMS / compliance classes in
    app/db/models/system.py, with system settings and the audit log. */
module SystemModel {
  import opened Common
  import MiscModel

  datatype ComplianceRequestStatus = SysPending | SysProcessing | Completed | SysRejected

  /** `ComplianceRequest.is_completed`: only COMPLETED. */
  predicate IsCompleted(s: ComplianceRequestStatus) { s == Completed }

  /** The two compliance classes disagree on a rejected request: misc.py counts
      it as complete, system.py does not. */
  lemma CompletionDisagreesOnRejected(c: MiscModel.ComplianceRequest)
    requires c.status == MiscModel.Rejected
    ensures MiscModel.IsComplete(c) && !IsCompleted(SysRejected)
  {
  }

  /** The JSON column `changes`: modelled as the list of its keys (None for NULL). */
  datatype AuditLog = AuditLog(id: int, userId: Option<int>, action: String, changes: Option<seq<String>>)

  /** `AuditLog.has_changes` */
  predicate HasChanges(a: AuditLog) { a.changes.Some? && |a.changes.value| > 0 }

  datatype SystemSetting = SystemSetting(key: String, value: Option<String>, valueType: String)

  /** What `get_typed_value` returns. A "json" setting is returned as its text:
      parsing JSON is not part of this model. `IntError` is the ValueError
      raised by `int()` on a non-numeric value. */
  datatype TypedValue = NoValue | IntValue(i: int) | BoolValue(b: bool) | JsonText(text: String)
                      | StringValue(s: String) | IntError

  /** The strings that read as true. */
  predicate IsTruthyText(v: String) { Lower(v) in {"true", "1", "yes"} }

  /** `SystemSetting.get_typed_value` */
  function GetTypedValue(s: SystemSetting): (r: TypedValue)
    ensures s.value.None? <==> r == NoValue
    ensures s.value.Some? && s.valueType == "bool" ==> r == BoolValue(IsTruthyText(s.value.value))
    ensures s.value.Some? && s.valueType !in {"int", "bool", "json"} ==> r == StringValue(s.value.value)
    ensures s.value.Some? && s.valueType == "int" ==>
              (r.IntValue? && ParseInt(s.value.value) == Some(r.i)) || (r == IntError && ParseInt(s.value.value).None?)
  {
    if s.value.None? then NoValue
    else if s.valueType == "int" then
      match ParseInt(s.value.value)
      case Some(i) => IntValue(i)
      case None => IntError
    else if s.valueType == "bool" then BoolValue(IsTruthyText(s.value.value))
    else if s.valueType == "json" then JsonText(s.value.value)
    else StringValue(s.value.value)
  }

  /** An integer setting written with `str(i)` reads back as `i`. */
  lemma IntSettingRoundTrip(key: String, i: int)
    ensures GetTypedValue(SystemSetting(key, Some(IntToString(i)), "int")) == IntValue(i)
  {
    ParseIntToString(i);
  }

  /** A bool setting reads true for any capitalisation of "true", "1" and "yes", and false otherwise. */
  lemma BoolSettingCaseInsensitive(key: String, v: String)
    ensures GetTypedValue(SystemSetting(key, Some(v), "bool")) == BoolValue(IsTruthyText(Lower(v)))
  {
    LowerIsLowered(v);
  }
}
