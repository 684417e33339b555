/** The task file that the launcher writes and the background run reads back.
    The JSON encoding is abstracted as a record of five lines, one per field of
    DeploymentTask, the creation time as its decimal clock value. */
module TaskFile {
  import opened Paths
  import opened Os
  import opened Deployment

  const MalformedTask := "invalid task record"

  /** json.Marshal(task), abstracted. */
  function Encode(t: Task): (lines: seq<string>)
    ensures |lines| == 5
  {
    [t.projectPath, t.scriptPath, t.logPath, t.taskId, Decimal(t.createdAt)]
  }

  /** json.Unmarshal into a DeploymentTask, abstracted: anything other than a
      record of five lines whose last is a decimal numeral without leading
      zeros is an error. */
  function Decode(lines: seq<string>): (r: Result<Task>)
    ensures r.Success? ==> |lines| == 5 && Encode(r.value) == lines
  {
    if |lines| != 5 || !IsDigits(lines[4]) || Decimal(ParseDecimal(lines[4])) != lines[4] then Failure(MalformedTask)
    else Success(Task(lines[0], lines[1], lines[2], lines[3], ParseDecimal(lines[4])))
  }

  /** What the launcher writes, the background run reads back unchanged. */
  lemma DecodeEncode(t: Task)
    ensures Decode(Encode(t)) == Success(t)
  {
    DecimalRoundTrip(t.createdAt);
  }
}
