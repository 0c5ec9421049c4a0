/** The CloudTrail log bucket ACL remediator: read the bucket's ACL, drop
    every grant to the all-users or the authenticated-users group, and write
    the filtered ACL back if anything was dropped. */
module CloudTrailBucketAcl {
  import opened Strings
  import opened Outcomes
  import opened Cloud

  /** The outcome of each call the run may issue, one per call site. */
  datatype Responses = Responses(getBucketAcl: Outcome<AccessControlPolicy>, putBucketAcl: Outcome<()>)

  /** A grant to a group whose URI names all users or all authenticated
      users. A grant whose grantee, type or URI is missing is never public:
      the lookup raises `KeyError` and the grant is kept. */
  predicate IsPublicGrant(g: Grant)
  {
    && g.grantee.Some? && g.grantee.value.kind.Some? && g.grantee.value.uri.Some?
    && g.grantee.value.kind.value == "Group"
    && (Contains(g.grantee.value.uri.value, "AllUsers") || Contains(g.grantee.value.uri.value, "AuthenticatedUsers"))
  }

  /** Some grant is public. */
  predicate HasPublicGrant(grants: seq<Grant>)
  {
    exists i :: 0 <= i < |grants| && IsPublicGrant(grants[i])
  }

  /** The grants that are not public, in their original order. */
  function KeptGrants(grants: seq<Grant>): (kept: seq<Grant>)
    ensures |kept| <= |grants|
  {
    if grants == [] then []
    else
      var last := grants[|grants| - 1];
      KeptGrants(grants[..|grants| - 1]) + (if IsPublicGrant(last) then [] else [last])
  }

  /** The ACL written back: the same owner, the kept grants. */
  function FilteredAcl(acl: AccessControlPolicy): AccessControlPolicy
  {
    AccessControlPolicy(acl.owner, KeptGrants(acl.grants))
  }

  /** Filtering distributes over concatenation: the kept grants of a list
      are the kept grants of its parts, in the same order. */
  lemma {:induction false} KeptGrantsAppend(front: seq<Grant>, back: seq<Grant>)
    ensures KeptGrants(front + back) == KeptGrants(front) + KeptGrants(back)
    decreases |back|
  {
    if back == [] {
      assert front + back == front;
    } else {
      var all := front + back;
      var init := back[..|back| - 1];
      assert all[..|all| - 1] == front + init;
      assert all[|all| - 1] == back[|back| - 1];
      KeptGrantsAppend(front, init);
    }
  }

  /** A grant survives exactly when it was there and is not public. */
  lemma {:induction false} KeptGrantsMembership(grants: seq<Grant>, g: Grant)
    ensures g in KeptGrants(grants) <==> g in grants && !IsPublicGrant(g)
    decreases |grants|
  {
    if grants != [] {
      var init := grants[..|grants| - 1];
      assert grants == init + [grants[|grants| - 1]];
      KeptGrantsMembership(init, g);
    }
  }

  /** A grant whose grantee, type or URI is missing is always kept. */
  lemma IncompleteGranteeKept(grants: seq<Grant>, i: int)
    requires 0 <= i < |grants|
    requires grants[i].grantee.None? || grants[i].grantee.value.kind.None? || grants[i].grantee.value.uri.None?
    ensures grants[i] in KeptGrants(grants)
  {
    KeptGrantsMembership(grants, grants[i]);
  }

  /** Something was dropped exactly when some grant was public. */
  lemma {:induction false} DroppedIffPublic(grants: seq<Grant>)
    ensures |KeptGrants(grants)| < |grants| <==> HasPublicGrant(grants)
    decreases |grants|
  {
    if grants != [] {
      var init := grants[..|grants| - 1];
      var last := grants[|grants| - 1];
      DroppedIffPublic(init);
      if HasPublicGrant(grants) && !IsPublicGrant(last) {
        var i :| 0 <= i < |grants| && IsPublicGrant(grants[i]);
        assert init[i] == grants[i];
      }
      if HasPublicGrant(init) {
        var i :| 0 <= i < |init| && IsPublicGrant(init[i]);
        assert grants[i] == init[i];
      }
    }
  }

  /** The kept grants hold no public grant, and filtering them again keeps
      them all. */
  lemma KeptGrantsIdempotent(grants: seq<Grant>)
    ensures !HasPublicGrant(KeptGrants(grants))
    ensures KeptGrants(KeptGrants(grants)) == KeptGrants(grants)
  {
    var kept := KeptGrants(grants);
    forall i | 0 <= i < |kept|
      ensures !IsPublicGrant(kept[i])
    {
      KeptGrantsMembership(grants, kept[i]);
    }
    KeptNonPublic(kept);
  }

  /** A list with no public grant is kept whole. */
  lemma {:induction false} KeptNonPublic(grants: seq<Grant>)
    requires !HasPublicGrant(grants)
    ensures KeptGrants(grants) == grants
    decreases |grants|
  {
    if grants != [] {
      var init := grants[..|grants| - 1];
      assert !IsPublicGrant(grants[|grants| - 1]);
      assert forall i :: 0 <= i < |init| ==> init[i] == grants[i];
      KeptNonPublic(init);
    }
  }

  /** `remove_public_acl`: one write; errors are reported, never raised. */
  method RemovePublicAcl(bucket: string, acl: AccessControlPolicy, result: Outcome<()>)
    returns (calls: seq<Call>, log: seq<Log>)
    ensures calls == [PutBucketAcl(bucket, acl)]
    ensures result.Ok? ==> log == [PublicAclRemoved(bucket)]
    ensures result.Err? ==> log == [ProviderError(result.message)]
  {
    calls := [PutBucketAcl(bucket, acl)];
    if result.Err? {
      log := [ProviderError(result.message)];
    } else {
      log := [PublicAclRemoved(bucket)];
    }
  }

  /** `remediate`: the alert's resource id is the bucket name. */
  method Remediate(alert: Alert, r: Responses) returns (calls: seq<Call>, log: seq<Log>)
    ensures |calls| >= 1 && calls[0] == GetBucketAcl(alert.resourceId)
    // a failed read ends the run with no write
    ensures r.getBucketAcl.Err? ==> calls == [calls[0]] && log == [ProviderError(r.getBucketAcl.message)]
    // the write happens exactly when a public grant was found ...
    ensures |calls| <= 2
    ensures |calls| == 2 <==> r.getBucketAcl.Ok? && HasPublicGrant(r.getBucketAcl.payload.grants)
    // ... with the same owner and the grants minus the public ones, in order
    ensures |calls| == 2 ==> calls[1] == PutBucketAcl(alert.resourceId, FilteredAcl(r.getBucketAcl.payload))
    ensures |calls| == 2 ==> log == [if r.putBucketAcl.Ok? then PublicAclRemoved(alert.resourceId)
                                     else ProviderError(r.putBucketAcl.message)]
    ensures r.getBucketAcl.Ok? && |calls| == 1 ==> log == []
  {
    var bucket := alert.resourceId;
    calls := [GetBucketAcl(bucket)];
    if r.getBucketAcl.Err? {
      log := [ProviderError(r.getBucketAcl.message)];
      return;
    }
    var acl := r.getBucketAcl.payload;
    var grants := acl.grants;

    var newGrants: seq<Grant> := [];
    var public := false;
    var i := 0;
    while i < |grants|
      invariant 0 <= i <= |grants|
      invariant newGrants == KeptGrants(grants[..i])
      invariant public <==> HasPublicGrant(grants[..i])
    {
      var grant := grants[i];
      assert grants[..i + 1] == grants[..i] + [grant];
      assert grants[..i + 1][..i] == grants[..i];
      if IsPublicGrant(grant) {
        public := true;
      } else {
        newGrants := newGrants + [grant];
      }
      assert HasPublicGrant(grants[..i]) ==> HasPublicGrant(grants[..i + 1]) by {
        if HasPublicGrant(grants[..i]) {
          var j :| 0 <= j < i && IsPublicGrant(grants[..i][j]);
          assert grants[..i + 1][j] == grants[..i][j];
        }
      }
      assert IsPublicGrant(grants[..i + 1][i]) <==> IsPublicGrant(grant);
      i := i + 1;
    }
    assert grants[..i] == grants;
    var newAcl := AccessControlPolicy(acl.owner, newGrants);

    log := [];
    if public {
      var putCalls;
      putCalls, log := RemovePublicAcl(bucket, newAcl, r.putBucketAcl);
      calls := calls + putCalls;
    }
  }
}
