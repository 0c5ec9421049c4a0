/** The RDS public-access remediator: look the instance up by its resource
    id and, if the first instance returned is publicly accessible, switch
    that off. */
module RdsPublicAccess {
  import opened Outcomes
  import opened Cloud

  /** The outcome of each call the run may issue, one per call site. */
  datatype Responses = Responses(describeDbInstances: Outcome<seq<DbInstance>>, modifyDbInstance: Outcome<()>)

  /** `PubliclyAccessible` of the first instance; an empty list or a missing
      key reads as not public. */
  function PublicFlag(instances: seq<DbInstance>): (public: bool)
    ensures public <==> |instances| > 0 && instances[0].publiclyAccessible == Some(true)
  {
    if |instances| == 0 then false
    else match instances[0].publiclyAccessible
      case None => false
      case Some(b) => b
  }

  /** `remediate`: the alert's resource id is the instance's resource id. */
  function Remediate(alert: Alert, r: Responses): (run: Run)
    ensures |run.calls| >= 1 && run.calls[0] == DescribeDbInstances(alert.resourceId)
    // a failed lookup ends the run with no modify call
    ensures r.describeDbInstances.Err? ==>
      run == Run([run.calls[0]], [ProviderError(r.describeDbInstances.message)])
    // exactly one modify call when the flag is set, none otherwise
    ensures |run.calls| <= 2
    ensures |run.calls| == 2 <==> r.describeDbInstances.Ok? && PublicFlag(r.describeDbInstances.payload)
    ensures |run.calls| == 2 ==>
      run.calls[1] == ModifyDbInstance(r.describeDbInstances.payload[0].dbInstanceIdentifier, false)
    ensures forall c :: c in run.calls && IsMutating(c) ==> c == run.calls[1] && |run.calls| == 2
    // the success note only when the modify call went through
    ensures forall e :: e in run.log && e.PublicAttributeRemoved? ==> |run.calls| == 2 && r.modifyDbInstance.Ok?
    ensures |run.calls| == 2 ==>
      run.log == [if r.modifyDbInstance.Ok?
                  then PublicAttributeRemoved(r.describeDbInstances.payload[0].dbInstanceIdentifier)
                  else ProviderError(r.modifyDbInstance.message)]
    ensures r.describeDbInstances.Ok? && |run.calls| == 1 ==> run.log == []
  {
    var describe := [DescribeDbInstances(alert.resourceId)];
    if r.describeDbInstances.Err? then
      Run(describe, [ProviderError(r.describeDbInstances.message)])
    else
      var instances := r.describeDbInstances.payload;
      if PublicFlag(instances) then
        var instanceId := instances[0].dbInstanceIdentifier;
        Run(describe + [ModifyDbInstance(instanceId, false)],
            if r.modifyDbInstance.Err? then [ProviderError(r.modifyDbInstance.message)]
            else [PublicAttributeRemoved(instanceId)])
      else
        Run(describe, [])
  }

  /** Once the modify call went through, the instance reads as not public,
      and the next run issues no mutating call. */
  lemma SecondRunModifiesNothing(alert: Alert, instance: DbInstance, rest: seq<DbInstance>, result: Outcome<()>)
    ensures var fixed := instance.(publiclyAccessible := Some(false));
      forall c :: c in Remediate(alert, Responses(Ok([fixed] + rest), result)).calls ==> !IsMutating(c)
  {
  }
}
