/**
 * The analysis record that app/routes/upload.tsx stores in the Puter key-value store and
 * app/routes/resume.tsx reads back, with the feedback it eventually holds. The record is a
 * value here, not its JSON text: serialisation is left to the platform.
 */
module Resume {
  import opened Remote

  datatype TipKind = Good | Improve

  datatype Tip = Tip(kind: TipKind, tip: string, explanation: string)

  datatype Category = Category(score: int, tips: seq<Tip>)

  /** The parsed reply of the inference service. */
  datatype Feedback = Feedback(
    overallScore: int,
    ats: Category,
    toneAndStyle: Category,
    content: Category,
    structure: Category,
    skills: Category)

  /** `feedback: ""` in the first write, the parsed reply in the second. */
  datatype FeedbackField = Pending | Parsed(value: Feedback)

  datatype Record = Record(
    id: string,
    resumePath: string,
    imagePath: string,
    companyName: string,
    jobTitle: string,
    jobDescription: string,
    feedback: FeedbackField)

  const KeyPrefix := "resume:"

  /** `resume:${uuid}`, the key both writes use and the results page reads. */
  function RecordKey(id: string): (key: string)
    ensures |key| == |KeyPrefix| + |id|
    ensures key[..|KeyPrefix|] == KeyPrefix && key[|KeyPrefix|..] == id
  {
    KeyPrefix + id
  }

  /** Different ids never share a key, so one run touches only its own record. */
  lemma RecordKeyInjective(a: string, b: string)
    requires RecordKey(a) == RecordKey(b)
    ensures a == b
  {
    assert a == RecordKey(a)[|KeyPrefix|..];
  }

  /** `kv.get(`resume:${id}`)` followed by the "nothing stored" early return of the results page. */
  function LoadRecord(kv: map<string, Record>, id: string): (r: Option<Record>)
    ensures r.Some? <==> RecordKey(id) in kv
    ensures r.Some? ==> r.value == kv[RecordKey(id)]
  {
    if RecordKey(id) in kv then Some(kv[RecordKey(id)]) else None
  }
}
