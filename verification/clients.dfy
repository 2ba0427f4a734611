/**
  The clients page: the client list narrowed by a case-insensitive search on
  name, email or company, and the stats row (total clients, active clients,
  documents summed over all clients), which is computed over the whole list.
 */
module Clients {
  import opened Text
  import opened Sequences

  datatype ClientStatus = Active | Inactive

  datatype Client = Client(
    id: int,
    name: string,
    email: string,
    phone: string,
    company: string,
    documents: int,
    status: ClientStatus)

  /** The clients the page lists. */
  const MockClients: seq<Client> := [
    Client(1, "Acme Corporation", "contact@acme.com", "+1 (555) 123-4567", "Acme Corp", 5, Active),
    Client(2, "TechStart Inc", "hello@techstart.io", "+1 (555) 234-5678", "TechStart", 3, Active),
    Client(3, "Design Studio", "info@designstudio.co", "+1 (555) 345-6789", "Design Studio Co", 8, Active),
    Client(4, "Global Media", "contact@globalmedia.com", "+1 (555) 456-7890", "Global Media LLC", 2, Inactive)
  ]

  /** The lowercased name, email or company includes the lowercased query. */
  predicate MatchesSearch(c: Client, query: string) {
    || Includes(ToLower(c.name), ToLower(query))
    || Includes(ToLower(c.email), ToLower(query))
    || Includes(ToLower(c.company), ToLower(query))
  }

  /** `filteredClients`: the clients that match the search, in their original
      order and with their multiplicities. */
  function FilterClients(cs: seq<Client>, query: string): (shown: seq<Client>)
    ensures |shown| <= |cs|
    ensures IsSubsequence(shown, cs)
    ensures forall c :: c in shown <==> c in cs && MatchesSearch(c, query)
    ensures forall c :: multiset(shown)[c] == if MatchesSearch(c, query) then multiset(cs)[c] else 0
  {
    Filter(c => MatchesSearch(c, query), cs)
  }

  /** An empty query lists every client. */
  lemma EmptySearchKeepsAll(cs: seq<Client>)
    ensures FilterClients(cs, "") == cs
  {
    forall i | 0 <= i < |cs|
      ensures MatchesSearch(cs[i], "")
    {
      IncludesEmpty(ToLower(cs[i].name));
    }
    FilterKeepsAll(c => MatchesSearch(c, ""), cs);
  }

  /** The search ignores letter case in the query. */
  lemma SearchIgnoresQueryCase(cs: seq<Client>, query: string)
    ensures FilterClients(cs, ToLower(query)) == FilterClients(cs, query)
  {
    ToLowerIdempotent(query);
    FilterSameTest(c => MatchesSearch(c, ToLower(query)), c => MatchesSearch(c, query), cs);
  }

  /** The number of active clients, counted one client at a time. */
  function CountActive(cs: seq<Client>): nat
    decreases |cs|
  {
    if |cs| == 0 then 0 else (if cs[0].status == Active then 1 else 0) + CountActive(cs[1..])
  }

  /** Filtering for active clients keeps exactly as many clients as are active. */
  lemma {:induction false} FilterActiveIsCount(cs: seq<Client>)
    ensures |Filter((c: Client) => c.status == Active, cs)| == CountActive(cs)
    decreases |cs|
  {
    if |cs| > 0 {
      FilterActiveIsCount(cs[1..]);
    }
  }

  /** The "Active" stat: `filter((c) => c.status === "active").length`, the
      number of active clients. */
  function ActiveCount(cs: seq<Client>): (n: nat)
    ensures n == CountActive(cs)
    ensures n <= |cs|
    ensures n == |cs| <==> forall i :: 0 <= i < |cs| ==> cs[i].status == Active
    ensures n == 0 <==> forall i :: 0 <= i < |cs| ==> cs[i].status != Active
  {
    var p := (c: Client) => c.status == Active;
    FilterKeepsAllIff(p, cs);
    FilterEmptyIff(p, cs);
    FilterActiveIsCount(cs);
    |Filter(p, cs)|
  }

  /** `reduce((acc, c) => acc + c.documents, acc)`: a left fold from `acc`,
      which adds the sum of the document counts to `acc`. */
  function ReduceDocuments(acc: int, cs: seq<Client>): (total: int)
    ensures total == acc + SumDocuments(cs)
    decreases |cs|
  {
    if |cs| == 0 then acc
    else
      SumOfFirstAndRest(cs);
      ReduceDocuments(acc + cs[0].documents, cs[1..])
  }

  /** The sum of the clients' document counts, computed by splitting off the
      last client; it does not use `ReduceDocuments`' accumulator. */
  function SumDocuments(cs: seq<Client>): int
    decreases |cs|
  {
    if |cs| == 0 then 0 else SumDocuments(cs[..|cs| - 1]) + cs[|cs| - 1].documents
  }

  /** The sum splits off the first client. */
  lemma {:induction false} SumOfFirstAndRest(cs: seq<Client>)
    requires |cs| > 0
    ensures SumDocuments(cs) == cs[0].documents + SumDocuments(cs[1..])
    decreases |cs|
  {
    if |cs| > 1 {
      var init := cs[..|cs| - 1];
      SumOfFirstAndRest(init);
      assert init[1..] == cs[1..][..|cs| - 2];
    } else {
      assert cs[1..] == [];
    }
  }

  /** With no negative document count, the sum is not negative and is at least
      each client's count. */
  lemma {:induction false} SumNonNegative(cs: seq<Client>)
    requires forall i :: 0 <= i < |cs| ==> cs[i].documents >= 0
    ensures SumDocuments(cs) >= 0
    ensures forall i :: 0 <= i < |cs| ==> cs[i].documents <= SumDocuments(cs)
    decreases |cs|
  {
    if |cs| > 0 {
      SumNonNegative(cs[..|cs| - 1]);
      assert forall i :: 0 <= i < |cs| - 1 ==> cs[..|cs| - 1][i] == cs[i];
    }
  }

  /** The figures of the stats row. */
  datatype Stats = Stats(total: nat, active: nat, documents: int)

  /** The stats row, over the list it is given. */
  function StatsOf(cs: seq<Client>): (st: Stats)
    ensures st.total == |cs| && st.active == CountActive(cs) && st.active <= st.total
    ensures st.documents == SumDocuments(cs)
  {
    Stats(|cs|, ActiveCount(cs), ReduceDocuments(0, cs))
  }

  /** With no negative document count, the documents stat is not negative. */
  lemma DocumentStatNonNegative(cs: seq<Client>)
    requires forall i :: 0 <= i < |cs| ==> cs[i].documents >= 0
    ensures StatsOf(cs).documents >= 0
  {
    SumNonNegative(cs);
  }

  /** What the page shows for a query: the filtered clients, and the stats of
      the unfiltered list. */
  datatype Page = Page(shown: seq<Client>, stats: Stats)

  function ShowPage(cs: seq<Client>, query: string): Page {
    Page(FilterClients(cs, query), StatsOf(cs))
  }

  /** The stats row does not depend on the search: every query shows the stats
      of the whole list, while the list shown only narrows. */
  lemma StatsIgnoreSearch(cs: seq<Client>, q1: string, q2: string)
    ensures ShowPage(cs, q1).stats == ShowPage(cs, q2).stats == StatsOf(cs)
    ensures ShowPage(cs, "").shown == cs
    ensures |ShowPage(cs, q1).shown| <= ShowPage(cs, q1).stats.total
  {
    EmptySearchKeepsAll(cs);
  }

  /** A list of four clients whose statuses and document counts are those of
      the page's own list has the stats row (4, 3, 18). */
  lemma StatsOfFour(cs: seq<Client>)
    requires |cs| == 4
    requires cs[0].status == Active && cs[1].status == Active && cs[2].status == Active && cs[3].status == Inactive
    requires cs[0].documents == 5 && cs[1].documents == 3 && cs[2].documents == 8 && cs[3].documents == 2
    ensures StatsOf(cs) == Stats(4, 3, 18)
  {
    assert ReduceDocuments(0, cs) == ReduceDocuments(5, cs[1..]);
    assert ReduceDocuments(5, cs[1..]) == ReduceDocuments(8, cs[2..]);
    assert ReduceDocuments(8, cs[2..]) == ReduceDocuments(16, cs[3..]);
    assert ReduceDocuments(16, cs[3..]) == ReduceDocuments(18, cs[4..]);
    var p := (c: Client) => c.status == Active;
    assert Filter(p, cs[3..]) == Filter(p, cs[4..]) == [];
    assert |Filter(p, cs[2..])| == 1 + |Filter(p, cs[3..])|;
    assert |Filter(p, cs[1..])| == 1 + |Filter(p, cs[2..])|;
    assert |Filter(p, cs)| == 1 + |Filter(p, cs[1..])|;
  }

  /** The stats row of the page's own client list: four clients, three of
      them active, eighteen documents. */
  lemma MockClientStats()
    ensures StatsOf(MockClients) == Stats(4, 3, 18)
  {
    StatsOfFour(MockClients);
  }
}
