/** The web agent's deterministic part: the list of sites to search, the `site:` clause
    built from it, and the final query. The search-query text the model writes and the
    search itself are parameters. */
module WebAgent {
  import opened Common
  import opened Text
  import QU = QueryUnderstanding

  /** `query_context` as the agent reads it (note: a list of domains). */
  datatype WebQueryContext = WebQueryContext(originalQuery: string, domains: seq<string>, entities: Entities, language: string)

  /** `domain_sites`. */
  function DomainSites(): map<string, seq<string>> {
    map["food" := ["voedselbank.nl", "voedselbankennederland.nl"],
        "shelter" := ["deregenboog.org", "opvang.nl"],
        "healthcare" := ["ggd.nl", "zorgverzekeringslijn.nl"],
        "domestic_violence" := ["veiligthuis.nl", "blijfgroep.nl"],
        "education" := ["amsterdam.nl/onderwijs"],
        "refugees" := ["vluchtelingenwerk.nl", "refugeehelp.nl"]]
  }

  /** The sites one domain contributes under a site table: its mapped list, or nothing. */
  function SitesFor(table: map<string, seq<string>>, domain: string): seq<string> {
    if domain in table then table[domain] else []
  }

  /** The mapped sites of all domains, in domain order, repeats included. */
  function MappedSites(table: map<string, seq<string>>, domains: seq<string>): seq<string> {
    if |domains| == 0 then [] else MappedSites(table, domains[..|domains| - 1]) + SitesFor(table, domains[|domains| - 1])
  }

  const RedCrossSite: string := "rodekruis.nl"

  /** The loop that grows `relevant_sites`. */
  method RelevantSites(domains: seq<string>) returns (sites: seq<string>)
    ensures sites == [RedCrossSite] + MappedSites(DomainSites(), domains)
  {
    var domainSites := DomainSites();
    sites := [RedCrossSite];
    for i := 0 to |domains|
      invariant sites == [RedCrossSite] + MappedSites(domainSites, domains[..i])
    {
      var domain := domains[i];
      if domain in domainSites {
        sites := sites + domainSites[domain];
      }
      assert sites == [RedCrossSite] + MappedSites(domainSites, domains[..i]) + SitesFor(domainSites, domain);
      assert domains[..i + 1][..i] == domains[..i];
    }
    assert domains[..|domains|] == domains;
  }

  /** Mapping distributes over concatenation of the domain lists. */
  lemma {:induction false} MappedSitesAppend(table: map<string, seq<string>>, a: seq<string>, b: seq<string>)
    ensures MappedSites(table, a + b) == MappedSites(table, a) + MappedSites(table, b)
  {
    if |b| > 0 {
      var b', last := b[..|b| - 1], b[|b| - 1];
      MappedSitesAppend(table, a, b');
      assert (a + b)[..|a + b| - 1] == a + b';
      assert (a + b)[|a + b| - 1] == last;
    } else {
      assert a + b == a;
    }
  }

  /** The number of sites a list of domains contributes. */
  function SiteCount(table: map<string, seq<string>>, domains: seq<string>): nat {
    if |domains| == 0 then 0 else SiteCount(table, domains[1..]) + |SitesFor(table, domains[0])|
  }

  /** The Red Cross site comes first, then the mapped sites in domain order: one more site
      than the mapped lists hold together. */
  lemma {:induction false} RelevantSitesShape(table: map<string, seq<string>>, domains: seq<string>)
    ensures ([RedCrossSite] + MappedSites(table, domains))[0] == RedCrossSite
    ensures |[RedCrossSite] + MappedSites(table, domains)| == 1 + SiteCount(table, domains)
  {
    if |domains| > 0 {
      RelevantSitesShape(table, domains[1..]);
      MappedSitesAppend(table, [domains[0]], domains[1..]);
      assert [domains[0]] + domains[1..] == domains;
      assert MappedSites(table, [domains[0]]) == SitesFor(table, domains[0]) by {
        assert [domains[0]][..0] == [];
      }
    }
  }

  /** A repeated domain contributes its sites again: nothing is de-duplicated. */
  lemma RepeatedDomainRepeatsSites(table: map<string, seq<string>>, domains: seq<string>, d: string)
    ensures MappedSites(table, domains + [d, d]) == MappedSites(table, domains) + SitesFor(table, d) + SitesFor(table, d)
  {
    assert (domains + [d, d])[..|domains| + 1] == domains + [d];
    assert (domains + [d])[..|domains|] == domains;
  }

  /** None of the classifier's domain names is a key of the site table (the lookup is
      case-sensitive and the vocabularies differ), so a list of classifier domains adds no
      site. */
  lemma {:induction false} ClassifierDomainsAddNoSites(domains: seq<QU.Domain>)
    ensures MappedSites(DomainSites(), seq(|domains|, i requires 0 <= i < |domains| => QU.DomainName(domains[i]))) == []
  {
    var names := seq(|domains|, i requires 0 <= i < |domains| => QU.DomainName(domains[i]));
    if |domains| > 0 {
      var front := domains[..|domains| - 1];
      ClassifierDomainsAddNoSites(front);
      assert names[..|names| - 1] == seq(|front|, i requires 0 <= i < |front| => QU.DomainName(front[i]));
      ClassifierNameUnmapped(domains[|domains| - 1]);
    }
  }

  /** No classifier domain name is a key of the site table. */
  lemma ClassifierNameUnmapped(d: QU.Domain)
    ensures QU.DomainName(d) !in DomainSites()
  {
    var keys := DomainSites().Keys;
    assert keys == {"food", "shelter", "healthcare", "domestic_violence", "education", "refugees"};
  }

  /** `"site:" + s` for every site, in order. */
  function SiteClauses(sites: seq<string>): (r: seq<string>)
    ensures |r| == |sites| && forall i :: 0 <= i < |sites| ==> r[i] == "site:" + sites[i]
  {
    seq(|sites|, i requires 0 <= i < |sites| => "site:" + sites[i])
  }

  /** `domain_priority`. */
  function DomainPriority(sites: seq<string>): string {
    Join(" OR ", SiteClauses(sites))
  }

  /** For a site list that starts with the Red Cross site (as `RelevantSitesShape` shows
      the agent's does), the priority clause starts with it, names every site, and
      separates the n clauses with n - 1 " OR "s. */
  lemma DomainPriorityShape(sites: seq<string>, i: nat)
    requires |sites| > 0 && sites[0] == RedCrossSite && i < |sites|
    ensures |"site:rodekruis.nl"| <= |DomainPriority(sites)|
    ensures DomainPriority(sites)[..|"site:rodekruis.nl"|] == "site:rodekruis.nl"
    ensures Contains(DomainPriority(sites), "site:" + sites[i])
    ensures |DomainPriority(sites)| == SumLengths(SiteClauses(sites)) + 4 * (|sites| - 1)
  {
    JoinStartsWithFirst(" OR ", SiteClauses(sites));
    JoinContains(" OR ", SiteClauses(sites), i);
    JoinLength(" OR ", SiteClauses(sites));
  }

  /** `full_query`: the model's search text, a space, then the site clause. */
  function FullQuery(searchQuery: string, domainPriority: string): (q: string)
    ensures |q| == |searchQuery| + 1 + |domainPriority|
    ensures q[..|searchQuery|] == searchQuery && q[|searchQuery|] == ' '
    ensures q[|searchQuery| + 1..] == domainPriority
  {
    searchQuery + " " + domainPriority
  }

  /** The location shown to the query-writing model: the extracted one or "Netherlands". */
  function SearchLocation(entities: Entities): (r: string)
    ensures (forall i :: 0 <= i < |entities| ==> entities[i].0 != "location") ==> r == "Netherlands"
    ensures (exists i :: 0 <= i < |entities| && entities[i].0 == "location") ==>
      exists i :: 0 <= i < |entities| && entities[i] == ("location", r)
  {
    LookupOr(entities, "location", "Netherlands")
  }

  /** `web_agent` after the query-writing call: `searchQuery` is the model's reply and
      `search` the web search. */
  method RunWebAgent(ctx: WebQueryContext, searchQuery: string, search: string -> string)
    returns (result: map<string, string>)
    ensures result.Keys == {"web_response"}
    ensures result["web_response"] == search(FullQuery(searchQuery, DomainPriority([RedCrossSite] + MappedSites(DomainSites(), ctx.domains))))
  {
    var sites := RelevantSites(ctx.domains);
    var domainPriority := DomainPriority(sites);
    var fullQuery := FullQuery(searchQuery, domainPriority);
    result := map["web_response" := search(fullQuery)];
  }
}
