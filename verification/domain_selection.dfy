/**
 * The bug-bounty scope filter of src/domain_selection.py.
 *
 * `fetch_scoped_domains` asks the HackerOne API for the hacker's programs and
 * collects the in-scope domains of every program that pays bounties. The HTTP
 * request and the JSON decoding are not modelled: the method is given the
 * response status and the decoded program list.
 */
module DomainSelection {
  import opened Wrappers

  /** The two attributes of a program the filter reads. */
  datatype Program = Program(bugBountyEnabled: bool, domains: seq<string>)

  const FetchError := "Failed to fetch programs from HackerOne"

  /** The domains of the bounty programs among `programs`, in program order. */
  function ScopedDomains(programs: seq<Program>): seq<string>
    decreases |programs|
  {
    if |programs| == 0 then []
    else
      var last := programs[|programs| - 1];
      ScopedDomains(programs[..|programs| - 1]) + (if last.bugBountyEnabled then last.domains else [])
  }

  /** How many domains the bounty programs among `programs` list, counted from the front. */
  function EnabledDomainCount(programs: seq<Program>): nat
    decreases |programs|
  {
    if |programs| == 0 then 0
    else (if programs[0].bugBountyEnabled then |programs[0].domains| else 0) + EnabledDomainCount(programs[1..])
  }

  /**
   * With status 200 the result is the bounty programs' domains, in order;
   * any other status raises, and no list is returned.
   */
  method FetchScopedDomains(status: int, programs: seq<Program>) returns (r: Result<seq<string>, string>)
    ensures status == 200 ==> r == Success(ScopedDomains(programs))
    ensures status != 200 ==> r == Failure(FetchError)
  {
    if status != 200 {
      return Failure(FetchError);
    }
    var scoped: seq<string> := [];
    for i := 0 to |programs|
      invariant scoped == ScopedDomains(programs[..i])
    {
      assert programs[..i + 1][..i] == programs[..i];
      if programs[i].bugBountyEnabled {
        scoped := scoped + programs[i].domains;
      }
    }
    assert programs[..|programs|] == programs;
    r := Success(scoped);
  }

  /** Filtering two runs of programs one after the other concatenates their results. */
  lemma {:induction false} ScopedDomainsAppend(a: seq<Program>, b: seq<Program>)
    ensures ScopedDomains(a + b) == ScopedDomains(a) + ScopedDomains(b)
    decreases |b|
  {
    if |b| == 0 {
      assert a + b == a;
    } else {
      var init := b[..|b| - 1];
      ScopedDomainsAppend(a, init);
      assert (a + b)[..|a + b| - 1] == a + init;
    }
  }

  /** A program without bounties contributes nothing, wherever it stands. */
  lemma DisabledContributesNothing(before: seq<Program>, p: Program, after: seq<Program>)
    requires !p.bugBountyEnabled
    ensures ScopedDomains(before + [p] + after) == ScopedDomains(before + after)
  {
    ScopedDomainsAppend(before + [p], after);
    ScopedDomainsAppend(before, [p]);
    ScopedDomainsAppend(before, after);
    assert [p][..0] == [];
  }

  /** The result has exactly as many entries as the bounty programs list domains. */
  lemma {:induction false} ScopedDomainsLength(programs: seq<Program>)
    ensures |ScopedDomains(programs)| == EnabledDomainCount(programs)
    decreases |programs|
  {
    if |programs| > 0 {
      ScopedDomainsLength(programs[1..]);
      ScopedDomainsAppend([programs[0]], programs[1..]);
      assert [programs[0]] + programs[1..] == programs;
      assert [programs[0]][..0] == [];
    }
  }

  /** A domain is in the result exactly when some bounty program lists it. */
  lemma {:induction false} ScopedDomainsMembers(programs: seq<Program>, d: string)
    ensures d in ScopedDomains(programs) <==>
      exists i :: 0 <= i < |programs| && programs[i].bugBountyEnabled && d in programs[i].domains
    decreases |programs|
  {
    if |programs| > 0 {
      var init := programs[..|programs| - 1];
      ScopedDomainsMembers(init, d);
      if d in ScopedDomains(programs) {
        if d in ScopedDomains(init) {
          var i :| 0 <= i < |init| && init[i].bugBountyEnabled && d in init[i].domains;
          assert programs[i] == init[i];
        } else {
          assert programs[|programs| - 1].bugBountyEnabled && d in programs[|programs| - 1].domains;
        }
      } else {
        forall i | 0 <= i < |programs| && programs[i].bugBountyEnabled
          ensures d !in programs[i].domains
        {
          if i < |init| {
            assert programs[i] == init[i];
          }
        }
      }
    }
  }
}
