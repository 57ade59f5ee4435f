/** The resumable batch run of checker.py: the memoised classifier
    `is_o365_domain` (checker.py:36-53) and the main loop with its checkpoint
    trigger (checker.py:81-96), over the checkpoint state loaded on
    checker.py:19-31. The pure functions at the top say what a run computes;
    the class `Checkpoint` below does it step by step and is proved to agree. */
module Batch {
  import opened Wrappers
  import opened Strings
  import opened Extraction
  import opened Classifier

  /** SAVE_EVERY (checker.py:12). */
  const SaveEvery: nat := 5000

  /** The MX lookup as an oracle from a domain to the resolver's answer. */
  type Resolver = string -> Answer

  /** What a run has built so far: the domain cache and the result lines. */
  datatype Progress = Progress(cache: map<string, Verdict>, results: seq<string>)

  /** One persisted checkpoint, as `json.dump` writes it on checker.py:95-96. */
  datatype Snapshot = Snapshot(index: nat, results: seq<string>, domainCache: map<string, Verdict>)

  /** Every match of EMAIL_REGEX holds an `@`. */
  predicate AllAddresses(emails: seq<string>) {
    forall k :: 0 <= k < |emails| ==> '@' in emails[k]
  }

  /** The result line appended on checker.py:87. */
  function Line(email: string, domain: string, provider: string): string {
    email + "\t" + domain + "\t" + provider
  }

  /** The verdict `is_o365_domain` gives for `domain` against `cache`. */
  function Classified(cache: map<string, Verdict>, domain: string, dns: Resolver): Verdict {
    if domain in cache then cache[domain] else Resolve(dns(domain))
  }

  /** One iteration of the main loop, before the save test. */
  function Step(p: Progress, email: string, dns: Resolver): Progress
    requires '@' in email
  {
    var d := Domain(email);
    var v := Classified(p.cache, d, dns);
    Progress(
      if d in p.cache then p.cache else p.cache[d := v],
      if v.isO365 then p.results + [Line(email, d, v.provider)] else p.results)
  }

  /** The progress after the loop has handled indices `start .. i-1`. */
  function RunTo(p0: Progress, emails: seq<string>, start: nat, i: nat, dns: Resolver): Progress
    requires AllAddresses(emails) && start <= i <= |emails|
    decreases i - start
  {
    if i == start then p0 else Step(RunTo(p0, emails, start, i - 1, dns), emails[i - 1], dns)
  }

  /** The save trigger on checker.py:90, for `n == i + 1`. */
  predicate SaveDue(n: nat, total: nat, every: nat)
    requires every > 0
  {
    n % every == 0 || n == total
  }

  /** The checkpoints written while the loop handles indices `start .. i-1`. */
  function Saves(p0: Progress, emails: seq<string>, start: nat, i: nat, dns: Resolver, every: nat): seq<Snapshot>
    requires AllAddresses(emails) && start <= i <= |emails| && every > 0
    decreases i - start
  {
    if i == start then []
    else
      var p := RunTo(p0, emails, start, i, dns);
      Saves(p0, emails, start, i - 1, dns, every)
        + (if SaveDue(i, |emails|, every) then [Snapshot(i, p.results, p.cache)] else [])
  }

  function Indices(ss: seq<Snapshot>): set<nat> {
    set s | s in ss :: s.index
  }

  /** A cache entry is sound when it is what the resolver would answer now. */
  predicate CacheSound(cache: map<string, Verdict>, dns: Resolver) {
    forall d :: d in cache ==> cache[d] == Resolve(dns(d))
  }

  /** The reference result: the lines for the addresses in `start .. i-1`
      whose domain the resolver places on O365, in index order, with no cache
      involved. */
  function Hits(emails: seq<string>, start: nat, i: nat, dns: Resolver): seq<string>
    requires AllAddresses(emails) && start <= i <= |emails|
    decreases i - start
  {
    if i == start then []
    else
      var e := emails[i - 1];
      var v := Resolve(dns(Domain(e)));
      Hits(emails, start, i - 1, dns) + (if v.isO365 then [Line(e, Domain(e), v.provider)] else [])
  }

  /** The results list is append-only and cache entries are never changed or
      removed: what a run started with is a prefix (resp. sub-map) of what it
      ends with. */
  lemma {:induction false} RunKeepsEarlierEntries(p0: Progress, emails: seq<string>, start: nat, i: nat, dns: Resolver)
    requires AllAddresses(emails) && start <= i <= |emails|
    ensures p0.results <= RunTo(p0, emails, start, i, dns).results
    ensures forall d :: d in p0.cache ==> d in RunTo(p0, emails, start, i, dns).cache && RunTo(p0, emails, start, i, dns).cache[d] == p0.cache[d]
    decreases i - start
  {
    if i > start {
      RunKeepsEarlierEntries(p0, emails, start, i - 1, dns);
    }
  }

  /** The domains of the addresses at indices `start .. i-1`. */
  function HandledDomains(emails: seq<string>, start: nat, i: nat): set<string>
    requires AllAddresses(emails) && start <= i <= |emails|
  {
    set k | start <= k < i :: Domain(emails[k])
  }

  /** After a run the cache holds exactly the domains it started with plus the
      domain of every address the run handled. */
  lemma {:induction false} RunCacheKeys(p0: Progress, emails: seq<string>, start: nat, i: nat, dns: Resolver)
    requires AllAddresses(emails) && start <= i <= |emails|
    ensures RunTo(p0, emails, start, i, dns).cache.Keys == p0.cache.Keys + HandledDomains(emails, start, i)
    decreases i - start
  {
    if i > start {
      RunCacheKeys(p0, emails, start, i - 1, dns);
      DomainsSnoc(emails, start, i);
      var p := RunTo(p0, emails, start, i - 1, dns);
      var q := Step(p, emails[i - 1], dns);
      assert RunTo(p0, emails, start, i, dns) == q;
      StepCacheKeys(p, emails[i - 1], dns);
      UnionSnoc(p.cache.Keys, p0.cache.Keys, HandledDomains(emails, start, i - 1), Domain(emails[i - 1]));
    }
  }

  /** Sequence append step used by the loop of `Run`. */
  lemma AppendAssoc<T>(a: seq<T>, b: seq<T>, c: seq<T>)
    ensures a + (b + c) == (a + b) + c
  {
  }

  /** Set union step used by `RunCacheKeys`. */
  lemma UnionSnoc<T>(a: set<T>, b: set<T>, c: set<T>, x: T)
    requires a == b + c
    ensures a + {x} == b + (c + {x})
  {
  }

  /** Classifying one address adds exactly its domain to the cache keys. */
  lemma StepCacheKeys(p: Progress, email: string, dns: Resolver)
    requires '@' in email
    ensures Step(p, email, dns).cache.Keys == p.cache.Keys + {Domain(email)}
  {
  }

  /** One more handled address adds its domain. */
  lemma DomainsSnoc(emails: seq<string>, start: nat, i: nat)
    requires AllAddresses(emails) && start < i <= |emails|
    ensures HandledDomains(emails, start, i) == HandledDomains(emails, start, i - 1) + {Domain(emails[i - 1])}
  {
  }

  /** The resolver calls a run makes while handling indices `start .. i-1`:
      the domain of each address whose domain is not yet cached, in index
      order. */
  function Calls(p0: Progress, emails: seq<string>, start: nat, i: nat, dns: Resolver): seq<string>
    requires AllAddresses(emails) && start <= i <= |emails|
    decreases i - start
  {
    if i == start then []
    else
      var d := Domain(emails[i - 1]);
      Calls(p0, emails, start, i - 1, dns) + (if d in RunTo(p0, emails, start, i - 1, dns).cache then [] else [d])
  }

  /** `cache` extends `cache0`, and `calls` names each domain at most once and
      exactly the keys of `cache` that `cache0` lacks. */
  ghost predicate NewKeysOnce(calls: seq<string>, cache0: map<string, Verdict>, cache: map<string, Verdict>) {
    cache0.Keys <= cache.Keys && NoDup(calls) && forall x :: x in calls <==> x in cache && x !in cache0
  }

  /** The resolver calls of a run are the domains the run added to the cache,
      each named once. */
  lemma {:induction false} CallsAreNewKeys(p0: Progress, emails: seq<string>, start: nat, i: nat, dns: Resolver)
    requires AllAddresses(emails) && start <= i <= |emails|
    ensures NewKeysOnce(Calls(p0, emails, start, i, dns), p0.cache, RunTo(p0, emails, start, i, dns).cache)
    decreases i - start
  {
    if i > start {
      CallsAreNewKeys(p0, emails, start, i - 1, dns);
      var p := RunTo(p0, emails, start, i - 1, dns);
      var d := Domain(emails[i - 1]);
      NewKeysSnoc(Calls(p0, emails, start, i - 1, dns), p0.cache, p.cache, d, Classified(p.cache, d, dns));
      assert RunTo(p0, emails, start, i, dns).cache == if d in p.cache then p.cache else p.cache[d := Classified(p.cache, d, dns)];
    }
  }

  /** The step of `CallsAreNewKeys`: a domain missing from the cache is
      called and added, a cached one neither. */
  lemma NewKeysSnoc(prev: seq<string>, cache0: map<string, Verdict>, cache: map<string, Verdict>, d: string, v: Verdict)
    requires NewKeysOnce(prev, cache0, cache)
    ensures NewKeysOnce(prev + (if d in cache then [] else [d]), cache0, if d in cache then cache else cache[d := v])
  {
  }

  /** A run asks the resolver about each domain at most once, and it asks
      about exactly the handled domains that the starting cache lacked. */
  lemma CallsAreFirstMisses(p0: Progress, emails: seq<string>, start: nat, i: nat, dns: Resolver)
    requires AllAddresses(emails) && start <= i <= |emails|
    ensures NoDup(Calls(p0, emails, start, i, dns))
    ensures forall d :: d in Calls(p0, emails, start, i, dns) <==> d in HandledDomains(emails, start, i) && d !in p0.cache
  {
    CallsAreNewKeys(p0, emails, start, i, dns);
    RunCacheKeys(p0, emails, start, i, dns);
  }

  /** Starting from a cache that agrees with the resolver, the run appends
      exactly the reference lines `Hits` to the results, and the cache still
      agrees with the resolver. */
  lemma {:induction false} RunMatchesResolver(p0: Progress, emails: seq<string>, start: nat, i: nat, dns: Resolver)
    requires AllAddresses(emails) && start <= i <= |emails|
    requires CacheSound(p0.cache, dns)
    ensures RunTo(p0, emails, start, i, dns).results == p0.results + Hits(emails, start, i, dns)
    ensures CacheSound(RunTo(p0, emails, start, i, dns).cache, dns)
    decreases i - start
  {
    if i > start {
      RunMatchesResolver(p0, emails, start, i - 1, dns);
    }
  }

  /** Running `a .. c` equals running `a .. b` and then `b .. c` from where
      the first part stopped: a run resumed at `b` ends in the same state. */
  lemma {:induction false} RunComposes(p0: Progress, emails: seq<string>, a: nat, b: nat, c: nat, dns: Resolver)
    requires AllAddresses(emails) && a <= b <= c <= |emails|
    ensures RunTo(p0, emails, a, c, dns) == RunTo(RunTo(p0, emails, a, b, dns), emails, b, c, dns)
    decreases c - b
  {
    if c > b {
      RunComposes(p0, emails, a, b, c - 1, dns);
    }
  }

  /** Proof step for the loop of `Run`: handling index `i` is one more
      `Step`, followed by a checkpoint when the save trigger fires, and one
      more resolver call when the domain was not cached. */
  lemma NextIndex(p0: Progress, emails: seq<string>, start: nat, i: nat, dns: Resolver, every: nat)
    requires AllAddresses(emails) && start <= i < |emails| && every > 0
    ensures var p := RunTo(p0, emails, start, i, dns);
      var q := RunTo(p0, emails, start, i + 1, dns);
      && q == Step(p, emails[i], dns)
      && Saves(p0, emails, start, i + 1, dns, every) ==
         Saves(p0, emails, start, i, dns, every) + (if SaveDue(i + 1, |emails|, every) then [Snapshot(i + 1, q.results, q.cache)] else [])
      && Calls(p0, emails, start, i + 1, dns) ==
         Calls(p0, emails, start, i, dns) + (if Domain(emails[i]) in p.cache then [] else [Domain(emails[i])])
  {
  }

  /** A checkpoint is written after index `n - 1` exactly when `n` passes the
      save trigger, and each checkpoint holds the progress at its index. */
  lemma {:induction false} SavesAreCheckpoints(p0: Progress, emails: seq<string>, start: nat, i: nat, dns: Resolver, every: nat)
    requires AllAddresses(emails) && start <= i <= |emails| && every > 0
    ensures Indices(Saves(p0, emails, start, i, dns, every)) == set n: nat | start < n <= i && SaveDue(n, |emails|, every)
    ensures forall s :: s in Saves(p0, emails, start, i, dns, every) ==>
      start < s.index <= i &&
      s.results == RunTo(p0, emails, start, s.index, dns).results &&
      s.domainCache == RunTo(p0, emails, start, s.index, dns).cache
    decreases i - start
  {
    if i > start {
      SavesAreCheckpoints(p0, emails, start, i - 1, dns, every);
      var ss := Saves(p0, emails, start, i, dns, every);
      var prev := Saves(p0, emails, start, i - 1, dns, every);
      var due := set n: nat | start < n <= i - 1 && SaveDue(n, |emails|, every);
      if SaveDue(i, |emails|, every) {
        var p := RunTo(p0, emails, start, i, dns);
        assert ss == prev + [Snapshot(i, p.results, p.cache)];
        assert Indices(ss) == Indices(prev) + {i};
        assert (set n: nat | start < n <= i && SaveDue(n, |emails|, every)) == due + {i};
      } else {
        assert ss == prev;
        assert (set n: nat | start < n <= i && SaveDue(n, |emails|, every)) == due;
      }
    }
  }

  /** The saved indices strictly increase. */
  lemma {:induction false} SavesIncrease(p0: Progress, emails: seq<string>, start: nat, i: nat, dns: Resolver, every: nat)
    requires AllAddresses(emails) && start <= i <= |emails| && every > 0
    ensures forall j, k :: 0 <= j < k < |Saves(p0, emails, start, i, dns, every)| ==>
      Saves(p0, emails, start, i, dns, every)[j].index < Saves(p0, emails, start, i, dns, every)[k].index
    decreases i - start
  {
    if i > start {
      SavesIncrease(p0, emails, start, i - 1, dns, every);
      SavesAreCheckpoints(p0, emails, start, i - 1, dns, every);
      var prev := Saves(p0, emails, start, i - 1, dns, every);
      forall j | 0 <= j < |prev| ensures prev[j].index < i {
        assert prev[j] in prev;
      }
    }
  }

  /** A run over a non-empty range ends with a checkpoint at `total` holding
      the final progress. */
  lemma FinalSave(p0: Progress, emails: seq<string>, start: nat, dns: Resolver, every: nat)
    requires AllAddresses(emails) && start < |emails| && every > 0
    ensures var ss := Saves(p0, emails, start, |emails|, dns, every);
      var p := RunTo(p0, emails, start, |emails|, dns);
      ss != [] && ss[|ss| - 1] == Snapshot(|emails|, p.results, p.cache)
  {
  }

  /** With a save interval of 2 and five addresses processed from the start,
      checkpoints are written after the 2nd, the 4th and the 5th address. */
  lemma SaveEveryTwoOfFive(p0: Progress, emails: seq<string>, dns: Resolver, every: nat)
    requires AllAddresses(emails) && |emails| == 5 && every == 2
    ensures Indices(Saves(p0, emails, 0, |emails|, dns, every)) == {2, 4, 5}
  {
    SavesAreCheckpoints(p0, emails, 0, |emails|, dns, every);
    var due := set n: nat | 0 < n <= |emails| && SaveDue(n, |emails|, every);
    forall n: nat ensures n in due <==> n in {2, 4, 5} {
      if n == 1 || n == 3 {
        assert n % every == 1;
      }
    }
  }

  /** Three addresses, the first two at the same domain, which the resolver
      places on O365, and the third at a domain it does not: both addresses of
      the first domain are reported with the same exchange host, the third is
      not, and the cache ends with one entry per domain. */
  lemma SharedDomainScenario(e1: string, e2: string, e3: string, dns: Resolver)
    requires '@' in e1 && '@' in e2 && '@' in e3
    requires Domain(e1) == Domain(e2) != Domain(e3)
    requires Resolve(dns(Domain(e1))).isO365 && !Resolve(dns(Domain(e3))).isO365
    ensures AllAddresses([e1, e2, e3])
    ensures var p := RunTo(Progress(map[], []), [e1, e2, e3], 0, 3, dns);
      var v, w := Resolve(dns(Domain(e1))), Resolve(dns(Domain(e3)));
      p.results == [Line(e1, Domain(e1), v.provider), Line(e2, Domain(e1), v.provider)] &&
      p.cache == map[Domain(e1) := v, Domain(e3) := w]
  {
    var emails := [e1, e2, e3];
    assert AllAddresses(emails);
    var p0 := Progress(map[], []);
    var v, w := Resolve(dns(Domain(e1))), Resolve(dns(Domain(e3)));
    var p1 := Progress(map[Domain(e1) := v], [Line(e1, Domain(e1), v.provider)]);
    var p2 := Progress(p1.cache, p1.results + [Line(e2, Domain(e1), v.provider)]);
    var p3 := Progress(p1.cache[Domain(e3) := w], p2.results);
    assert RunTo(p0, emails, 0, 1, dns) == Step(p0, e1, dns) == p1;
    assert RunTo(p0, emails, 0, 2, dns) == Step(p1, e2, dns) == p2;
    assert RunTo(p0, emails, 0, 3, dns) == Step(p2, e3, dns) == p3;
  }

  /** Concrete data meeting the scenario above: `a@x.com` and `b@X.com` share
      the domain `x.com`, whose exchange `mail.protection.outlook.com` is
      reported as the provider, and `c@y.com` is at `y.com`, whose exchange
      `mx.other.com` makes it "Other". */
  lemma TwoDomainExample(dns: Resolver)
    requires dns("x.com") == Some(["mail.protection.outlook.com"])
    requires dns("y.com") == Some(["mx.other.com"])
    ensures Domain("a@x.com") == Domain("b@X.com") == "x.com" && Domain("c@y.com") == "y.com"
    ensures Resolve(dns("x.com")) == Verdict(true, "mail.protection.outlook.com")
    ensures Resolve(dns("y.com")) == Verdict(false, OtherProvider)
  {
    ScenarioDomains();
    OutlookScenarioVerdict();
    OtherScenarioVerdict();
  }

  /** The scenario on the concrete data of `TwoDomainExample`: starting from
      an empty checkpoint, `a@x.com` and `b@X.com` are reported with domain
      `x.com` and provider `mail.protection.outlook.com`, `c@y.com` is not,
      and the cache ends holding `x.com` and `y.com`. */
  lemma ConcreteScenario(a: string, b: string, c: string, dns: Resolver)
    requires a == "a@x.com" && b == "b@X.com" && c == "c@y.com"
    requires dns("x.com") == Some(["mail.protection.outlook.com"])
    requires dns("y.com") == Some(["mx.other.com"])
    ensures AllAddresses([a, b, c])
    ensures var p := RunTo(Progress(map[], []), [a, b, c], 0, 3, dns);
      p.results == [Line(a, "x.com", "mail.protection.outlook.com"), Line(b, "x.com", "mail.protection.outlook.com")] &&
      p.cache.Keys == {"x.com", "y.com"}
  {
    TwoDomainExample(dns);
    assert a[1] == '@' && b[1] == '@' && c[1] == '@';
    SharedDomainScenario(a, b, c, dns);
  }

  lemma ScenarioDomains()
    ensures Domain("a@x.com") == "x.com" && Domain("b@X.com") == "x.com" && Domain("c@y.com") == "y.com"
  {
    DomainOfAddress("a", "x.com");
    DomainOfAddress("b", "X.com");
    DomainOfAddress("c", "y.com");
    assert Lower("x.com") == Lower("X.com") == "x.com";
    assert Lower("y.com") == "y.com";
    assert "a@x.com" == "a" + "@" + "x.com";
    assert "b@X.com" == "b" + "@" + "X.com";
    assert "c@y.com" == "c" + "@" + "y.com";
  }

  lemma OutlookScenarioVerdict()
    ensures ClassifyHosts(["mail.protection.outlook.com"]) == Verdict(true, "mail.protection.outlook.com")
  {
    var outlook := "mail.protection.outlook.com";
    assert Lower(outlook) == outlook;
    assert Contains(outlook, "outlook.com") by {
      ContainsAt(outlook, "outlook.com", 16);
    }
  }

  lemma OtherScenarioVerdict()
    ensures ClassifyHosts(["mx.other.com"]) == Verdict(false, OtherProvider)
  {
    var other := "mx.other.com";
    assert Lower(other) == other;
    assert !Contains(other, "outlook.com") by {
      assert other[0] == 'm' && other[1..][0] == 'x';
      ShorterDoesNotContain(other[1..][1..], "outlook.com");
    }
    ShorterDoesNotContain(other, "mail.protection.outlook.com");
    assert ["mx.other.com"][1..] == [];
  }

  /** Killing the job after any checkpoint and resuming from that checkpoint
      ends in the same state as the uninterrupted run. */
  lemma ResumeFromAnySave(p0: Progress, emails: seq<string>, start: nat, dns: Resolver, every: nat, s: Snapshot)
    requires AllAddresses(emails) && start <= |emails| && every > 0
    requires s in Saves(p0, emails, start, |emails|, dns, every)
    ensures s.index <= |emails|
    ensures RunTo(Progress(s.domainCache, s.results), emails, s.index, |emails|, dns) == RunTo(p0, emails, start, |emails|, dns)
  {
    SavesAreCheckpoints(p0, emails, start, |emails|, dns, every);
    RunComposes(p0, emails, start, s.index, |emails|, dns);
  }

  /** The in-memory checkpoint (checker.py:19-31) together with the module
      state that aliases it: `domain_cache`, `results`, and the stored index. */
  class Checkpoint {
    /** `checkpoint["index"]`: only the save points change it. */
    var index: nat
    var results: seq<string>
    var domainCache: map<string, Verdict>
    /** `dns.resolver.resolve(domain, "MX")`. */
    const resolver: Resolver
    /** The checkpoints written to the checkpoint file in this run, oldest first. */
    ghost var saved: seq<Snapshot>
    /** The domains this run has asked the resolver about, in order. */
    ghost var lookups: seq<string>

    /** Each domain goes to the resolver at most once per run, and what it
        answered is what the cache holds. */
    ghost predicate Valid()
      reads this`lookups, this`domainCache
    {
      && NoDup(lookups)
      && (forall d :: d in lookups ==> d in domainCache && domainCache[d] == Resolve(resolver(d)))
    }

    /** No checkpoint file: index 0, no results, an empty cache (checker.py:22-27). */
    constructor Fresh(dns: Resolver)
      ensures Valid()
      ensures index == 0 && results == [] && domainCache == map[] && resolver == dns
      ensures saved == [] && lookups == []
    {
      index, results, domainCache, resolver := 0, [], map[], dns;
      saved, lookups := [], [];
    }

    /** A checkpoint file exists: start from what it holds (checker.py:19-21). */
    constructor Load(s: Snapshot, dns: Resolver)
      ensures Valid()
      ensures index == s.index && results == s.results && domainCache == s.domainCache && resolver == dns
      ensures saved == [] && lookups == []
    {
      index, results, domainCache, resolver := s.index, s.results, s.domainCache, dns;
      saved, lookups := [], [];
    }

    /** `is_o365_domain` (checker.py:36-53). A cached domain returns its stored
        verdict with no resolver call; otherwise the resolver is asked once,
        and its verdict is cached and returned. */
    method IsO365Domain(domain: string) returns (v: Verdict)
      requires Valid()
      modifies this`domainCache, this`lookups
      ensures Valid()
      ensures domain in domainCache && v == domainCache[domain]
      ensures domain in old(domainCache) ==>
        v == old(domainCache)[domain] && domainCache == old(domainCache) && lookups == old(lookups)
      ensures domain !in old(domainCache) ==>
        v == Resolve(resolver(domain)) &&
        domainCache == old(domainCache)[domain := v] &&
        lookups == old(lookups) + [domain]
    {
      if domain in domainCache {
        return domainCache[domain];
      }
      lookups := lookups + [domain];
      var answer := resolver(domain);
      match answer {
        case None =>
          v := Verdict(false, NoMxProvider);
        case Some(hosts) =>
          var k := 0;
          while k < |hosts|
            invariant k <= |hosts|
            invariant forall j :: 0 <= j < k ==> !IsOutlookHost(Lower(hosts[j]))
          {
            var mx := Lower(hosts[k]);
            if IsOutlookHost(mx) {
              FirstMatchWins(hosts, k);
              v := Verdict(true, mx);
              domainCache := domainCache[domain := v];
              return;
            }
            k := k + 1;
          }
          NoMatchIsOther(hosts);
          v := Verdict(false, OtherProvider);
      }
      domainCache := domainCache[domain := v];
    }

    /** One pass of the main loop's body (checker.py:82-96) for the address
        at index `n - 1` of `total`: classify its domain, append a line when it
        is on O365, and save a checkpoint when the trigger fires for `n`. */
    method HandleAddress(email: string, n: nat, total: nat)
      requires Valid() && '@' in email
      modifies this`index, this`results, this`domainCache, this`saved, this`lookups
      ensures Valid()
      ensures Progress(domainCache, results) == Step(old(Progress(domainCache, results)), email, resolver)
      ensures SaveDue(n, total, SaveEvery) ==>
        index == n && saved == old(saved) + [Snapshot(n, results, domainCache)]
      ensures !SaveDue(n, total, SaveEvery) ==> index == old(index) && saved == old(saved)
      ensures lookups == old(lookups) + (if Domain(email) in old(domainCache) then [] else [Domain(email)])
    {
      var domain := Domain(email);
      var v := IsO365Domain(domain);
      if v.isO365 {
        results := results + [Line(email, domain, v.provider)];
      }
      if n % SaveEvery == 0 || n == total {
        index := n;
        saved := saved + [Snapshot(n, results, domainCache)];
      }
    }

    /** The state `Run` has reached after indices `start .. i-1`. */
    ghost predicate ReachedAt(p0: Progress, emails: seq<string>, start: nat, i: nat,
                              saved0: seq<Snapshot>, lookups0: seq<string>)
      requires AllAddresses(emails) && start <= i <= |emails|
      reads this`domainCache, this`results, this`saved, this`lookups
    {
      && Progress(domainCache, results) == RunTo(p0, emails, start, i, resolver)
      && saved == saved0 + Saves(p0, emails, start, i, resolver, SaveEvery)
      && lookups == lookups0 + Calls(p0, emails, start, i, resolver)
    }

    /** The body of `Run`'s loop for index `i`: `HandleAddress` on
        `emails[i]`, which moves the state `Run` has reached from `i` to
        `i + 1`. */
    method HandleNext(emails: seq<string>, i: nat, ghost p0: Progress, ghost start: nat,
                      ghost saved0: seq<Snapshot>, ghost lookups0: seq<string>)
      requires Valid() && AllAddresses(emails) && start <= i < |emails|
      requires ReachedAt(p0, emails, start, i, saved0, lookups0)
      modifies this`index, this`results, this`domainCache, this`saved, this`lookups
      ensures Valid() && ReachedAt(p0, emails, start, i + 1, saved0, lookups0)
      ensures SaveDue(i + 1, |emails|, SaveEvery) ==> index == i + 1
      ensures !SaveDue(i + 1, |emails|, SaveEvery) ==> index == old(index)
    {
      NextIndex(p0, emails, start, i, resolver, SaveEvery);
      ghost var q := RunTo(p0, emails, start, i + 1, resolver);
      AppendAssoc(saved0, Saves(p0, emails, start, i, resolver, SaveEvery),
        if SaveDue(i + 1, |emails|, SaveEvery) then [Snapshot(i + 1, q.results, q.cache)] else []);
      AppendAssoc(lookups0, Calls(p0, emails, start, i, resolver),
        if Domain(emails[i]) in domainCache then [] else [Domain(emails[i])]);
      HandleAddress(emails[i], i + 1, |emails|);
    }

    /** The main loop (checker.py:81-96): classify `emails[start_index..]`,
        append a line per O365 hit, and write a checkpoint after index `i`
        when `i + 1` is a multiple of SAVE_EVERY or the last index. When
        `start_index >= len(emails)` nothing at all happens. */
    method Run(emails: seq<string>)
      requires Valid() && AllAddresses(emails)
      modifies this`index, this`results, this`domainCache, this`saved, this`lookups
      ensures Valid()
      ensures old(index) >= |emails| ==>
        index == old(index) && results == old(results) && domainCache == old(domainCache) &&
        saved == old(saved) && lookups == old(lookups)
      ensures old(index) < |emails| ==>
        var p0 := Progress(old(domainCache), old(results));
        var p := RunTo(p0, emails, old(index), |emails|, resolver);
        index == |emails| && results == p.results && domainCache == p.cache &&
        saved == old(saved) + Saves(p0, emails, old(index), |emails|, resolver, SaveEvery) &&
        lookups == old(lookups) + Calls(p0, emails, old(index), |emails|, resolver)
    {
      if index >= |emails| {
        return;
      }
      ghost var p0 := Progress(domainCache, results);
      ghost var saved0 := saved;
      ghost var lookups0 := lookups;
      var start := index;
      var total := |emails|;
      var i := start;
      while i < total
        invariant Valid()
        invariant start <= i <= total
        invariant ReachedAt(p0, emails, start, i, saved0, lookups0)
        invariant i == start ==> index == start
        invariant i == total ==> index == total
      {
        HandleNext(emails, i, p0, start, saved0, lookups0);
        i := i + 1;
      }
    }
  }
}
