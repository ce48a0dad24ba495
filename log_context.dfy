/** Log correlation: a logging filter that prefixes each record with the
    job and task ids of the message being processed. The ids, which the
    source keeps in context variables, are passed explicitly. */
module LogContext {
  import opened Wrappers
  import opened ChunkModel

  /** The context variables, both unset (`None`) by default. */
  datatype ContextIds = ContextIds(jobId: Option<Uuid>, taskId: Option<Uuid>)

  const InitialContext := ContextIds(None, None)

  /** How an f-string renders an optional UUID. */
  function Render(id: Option<Uuid>): string
  {
    match id
    case None => "None"
    case Some(u) => u.text
  }

  /** The prefix put on a record: job and task when a task id is set (the
      job rendered as "None" if it is unset), the job alone when only it is
      set, and nothing otherwise. A UUID is always truthy. */
  function ContextInfo(ids: ContextIds): (info: string)
    ensures ids.taskId.Some? ==> info == "[" + Render(ids.jobId) + "|" + ids.taskId.value.text + "] "
    ensures ids.taskId.None? && ids.jobId.Some? ==> info == "[" + ids.jobId.value.text + "] "
    ensures ids.taskId.None? && ids.jobId.None? ==> info == ""
  {
    if ids.taskId.Some? then "[" + Render(ids.jobId) + "|" + ids.taskId.value.text + "] "
    else if ids.jobId.Some? then "[" + ids.jobId.value.text + "] "
    else ""
  }

  /** A UUID in canonical form has 36 characters. */
  predicate Canonical(id: Option<Uuid>)
  {
    id.Some? ==> |id.value.text| == 36
  }

  /** Where the two ids sit in a job-and-task prefix. */
  lemma JobTaskParts(j: string, t: string)
    ensures |"[" + j + "|" + t + "] "| == |j| + |t| + 4
    ensures ("[" + j + "|" + t + "] ")[1..1 + |j|] == j
    ensures ("[" + j + "|" + t + "] ")[2 + |j|..2 + |j| + |t|] == t
  {
    var s := "[" + j + "|" + t + "] ";
    assert s == "[" + (j + ("|" + (t + "] ")));
    assert s[1..] == j + ("|" + (t + "] "));
    assert s[1..][..|j|] == j;
    assert s[2 + |j|..] == t + "] ";
    assert s[2 + |j|..][..|t|] == t;
  }

  /** Where the id sits in a job-only prefix. */
  lemma JobParts(j: string)
    ensures |"[" + j + "] "| == |j| + 3
    ensures ("[" + j + "] ")[1..1 + |j|] == j
  {
    var s := "[" + j + "] ";
    assert s[1..] == j + "] ";
    assert s[1..][..|j|] == j;
  }

  /** With canonical UUIDs the prefix identifies the ids it was made from, so
      two messages with different correlation ids never share a prefix. */
  lemma ContextInfoIsInjective(a: ContextIds, b: ContextIds)
    requires Canonical(a.jobId) && Canonical(a.taskId) && Canonical(b.jobId) && Canonical(b.taskId)
    requires ContextInfo(a) == ContextInfo(b)
    ensures a == b
  {
    if a.taskId.Some? && b.taskId.Some? {
      var ja, jb := Render(a.jobId), Render(b.jobId);
      JobTaskParts(ja, a.taskId.value.text);
      JobTaskParts(jb, b.taskId.value.text);
      assert |ja| == |jb|;
      assert ja == jb;
      assert a.jobId == b.jobId;
      assert a.taskId.value.text == b.taskId.value.text;
    } else if a.taskId.None? && b.taskId.None? && a.jobId.Some? && b.jobId.Some? {
      JobParts(a.jobId.value.text);
      JobParts(b.jobId.value.text);
      assert a.jobId.value.text == b.jobId.value.text;
    } else {
      assert |ContextInfo(a)| == |ContextInfo(b)|;
    }
  }

  /** A log record; only the attribute the filter writes is modelled. */
  class LogRecord {
    var contextInfo: string

    constructor ()
      ensures contextInfo == ""
    {
      contextInfo := "";
    }
  }

  class ContextFilter {
    constructor () {}

    /** `filter(record)`: writes the prefix of the current ids on the record
        and keeps every record. */
    method Filter(record: LogRecord, ids: ContextIds) returns (keep: bool)
      modifies record
      ensures keep
      ensures record.contextInfo == ContextInfo(ids)
    {
      record.contextInfo := ContextInfo(ids);
      keep := true;
    }
  }

  /** Outside any message the context is unset and records get no prefix. */
  lemma InitialContextHasNoPrefix()
    ensures InitialContext.jobId.None? && InitialContext.taskId.None?
    ensures ContextInfo(InitialContext) == ""
  {
  }
}
