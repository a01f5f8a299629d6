/** What the record store answers to a write. A request is either refused as a
    whole (`response.success` false) or answered with one result per record. */
module Remote {
  import opened Wrappers
  import opened Seqs

  datatype RecordResult = Succeeded | Failed(message: string)

  datatype Reply = Refused(message: string) | Results(results: seq<RecordResult>)

  predicate IsFailure(r: RecordResult) {
    r.Failed?
  }

  /** The message a failed record is reported with: its own, or the service's
      fallback text when it carries none (`failed[0].message || fallback`). */
  function FailureText(r: RecordResult, fallback: string): string
    requires r.Failed?
  {
    if r.message == "" then fallback else r.message
  }

  /** What JavaScript throws when a service reads `.data` from the first
      successful record of an empty results list. */
  const NoRecordText: string := "Cannot read properties of undefined (reading 'data')"

  /** The error a service method throws for a reply, if any: the refusal's
      message, the first failed record's text, or the `TypeError` of reading the
      first record of an empty results list. */
  function WriteError(reply: Reply, fallback: string): (e: Option<string>)
    ensures reply.Refused? ==> e == Some(reply.message)
    ensures reply.Results? && reply.results == [] ==> e == Some(NoRecordText)
    ensures reply.Results? ==>
      (e.None? <==>
        |reply.results| > 0 && forall i :: 0 <= i < |reply.results| ==> !reply.results[i].Failed?)
    ensures reply.Results? && e.Some? && reply.results != [] ==>
      var k := FirstIndex(reply.results, IsFailure);
      k < |reply.results| && e == Some(FailureText(reply.results[k], fallback))
      && forall j :: 0 <= j < k ==> reply.results[j].Succeeded?
    ensures fallback != "" && e.Some? && reply.Results? ==> e.value != ""
  {
    match reply
    case Refused(m) => Some(m)
    case Results(rs) =>
      var failed := Filter(rs, IsFailure);
      FilterHead(rs, IsFailure);
      if |failed| > 0 then Some(FailureText(failed[0], fallback))
      else if rs == [] then Some(NoRecordText)
      else None
  }
}
