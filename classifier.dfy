module Wrappers {
  datatype Option<+T> = None | Some(value: T)
}

/** The decision `is_o365_domain` takes once the resolver has answered
    (checker.py:40-53), as pure functions of the resolver's answer. The
    cache around it lives in the Batch module. */
module Classifier {
  import opened Wrappers
  import opened Strings

  /** The `(is_o365, provider)` pair the source returns and caches. */
  datatype Verdict = Verdict(isO365: bool, provider: string)

  const OtherProvider: string := "Other"
  const NoMxProvider: string := "No MX"

  /** The MX query: `Some(hosts)` is the exchange host names in the order the
      resolver returned them; `None` is any exception the query raised. */
  type Answer = Option<seq<string>>

  /** The test on checker.py:44, written with both of its disjuncts. */
  predicate IsOutlookHost(mx: string) {
    Contains(mx, "outlook.com") || Contains(mx, "mail.protection.outlook.com")
  }

  /** The second disjunct on checker.py:44 adds nothing: every host containing
      "mail.protection.outlook.com" already contains "outlook.com". */
  lemma {:induction false} OutlookHostIsOneTest(mx: string)
    ensures IsOutlookHost(mx) <==> Contains(mx, "outlook.com")
    decreases |mx|
  {
    var long := "mail.protection.outlook.com";
    if Contains(mx, long) {
      if long <= mx {
        assert mx[16..27] == long[16..27] == "outlook.com";
        ContainsAt(mx, "outlook.com", 16);
      } else {
        OutlookHostIsOneTest(mx[1..]);
      }
    }
  }

  /** The loop over the MX records on checker.py:42-49: the first host that,
      lower-cased, passes the test decides; with no such host the domain is
      "Other". */
  function ClassifyHosts(hosts: seq<string>): Verdict {
    if hosts == [] then Verdict(false, OtherProvider)
    else
      var mx := Lower(hosts[0]);
      if IsOutlookHost(mx) then Verdict(true, mx) else ClassifyHosts(hosts[1..])
  }

  /** An O365 verdict names one of the resolver's hosts, lower-cased, and
      that host passes the test; any other verdict is "Other". */
  lemma {:induction false} ClassifyHostsSound(hosts: seq<string>)
    ensures ClassifyHosts(hosts).isO365 ==> exists k :: 0 <= k < |hosts| && ClassifyHosts(hosts).provider == Lower(hosts[k]) && IsOutlookHost(Lower(hosts[k]))
    ensures !ClassifyHosts(hosts).isO365 ==> ClassifyHosts(hosts).provider == OtherProvider
  {
    if hosts != [] && !IsOutlookHost(Lower(hosts[0])) {
      ClassifyHostsSound(hosts[1..]);
      var v := ClassifyHosts(hosts[1..]);
      if v.isO365 {
        var j :| 0 <= j < |hosts[1..]| && v.provider == Lower(hosts[1..][j]) && IsOutlookHost(Lower(hosts[1..][j]));
        assert hosts[1..][j] == hosts[j + 1];
      }
    }
  }

  /** The first matching host wins: if host `k` matches and none before it
      does, the verdict is O365 with host `k`, lower-cased. */
  lemma {:induction false} FirstMatchWins(hosts: seq<string>, k: nat)
    requires k < |hosts| && IsOutlookHost(Lower(hosts[k]))
    requires forall j :: 0 <= j < k ==> !IsOutlookHost(Lower(hosts[j]))
    ensures ClassifyHosts(hosts) == Verdict(true, Lower(hosts[k]))
  {
    if k > 0 {
      assert hosts[1..][k - 1] == hosts[k];
      FirstMatchWins(hosts[1..], k - 1);
    }
  }

  /** With no matching host the verdict is `(False, "Other")`. */
  lemma {:induction false} NoMatchIsOther(hosts: seq<string>)
    requires forall j :: 0 <= j < |hosts| ==> !IsOutlookHost(Lower(hosts[j]))
    ensures ClassifyHosts(hosts) == Verdict(false, OtherProvider)
  {
    if hosts != [] {
      NoMatchIsOther(hosts[1..]);
    }
  }

  /** The verdict for one resolver answer; a failed query is `(False, "No MX")`. */
  function Resolve(answer: Answer): Verdict {
    match answer
    case None => Verdict(false, NoMxProvider)
    case Some(hosts) => ClassifyHosts(hosts)
  }

  /** The three outcomes and only them: O365 with a host containing
      "outlook.com", "Other" after a successful query, "No MX" exactly when the
      query failed. */
  lemma VerdictOutcomes(answer: Answer)
    ensures Resolve(answer).isO365 ==> answer.Some? && Contains(Resolve(answer).provider, "outlook.com")
    ensures !Resolve(answer).isO365 ==> Resolve(answer).provider == (if answer.None? then NoMxProvider else OtherProvider)
  {
    if answer.Some? {
      ClassifyHostsSound(answer.value);
    }
    if Resolve(answer).isO365 {
      OutlookHostIsOneTest(Resolve(answer).provider);
    }
  }
}
