/** The clients list: clients filtered by name or email, paged, and
    deletion after the user confirms. */
module ClientsList {
  import opened Common
  import Pagination

  /** One client. A missing name or email is "". */
  datatype Client = Client(oid: string, name: string, email: string, kind: string, phone: string)

  const PAGE_SIZE: nat := 10

  /** A client is kept iff the query is empty or the name or the email contains it, ignoring case. */
  predicate Matches(c: Client, query: string)
  {
    query == "" || (c.name != "" && MatchesQuery(c.name, query)) || (c.email != "" && MatchesQuery(c.email, query))
  }

  function Filtered(clients: seq<Client>, query: string): (r: seq<Client>)
    ensures query == "" ==> r == clients
    ensures forall i :: 0 <= i < |r| ==> r[i] in clients && Matches(r[i], query)
    ensures forall i :: 0 <= i < |clients| && Matches(clients[i], query) ==> clients[i] in r
  {
    if query == "" then clients else Filter(clients, (c: Client) => Matches(c, query))
  }

  /** A client with neither name nor email never matches a non-empty query. */
  lemma NamelessNeverMatches(c: Client, query: string)
    requires c.name == "" && c.email == "" && query != ""
    ensures !Matches(c, query)
  {
  }

  /** Whatever the query, a client is found by its own name. */
  lemma FoundByOwnName(c: Client)
    requires c.name != ""
    ensures Matches(c, c.name)
  {
    ContainsAt(Lower(c.name), Lower(c.name), 0);
  }

  /** The list without the clients that have the given id. */
  function WithoutId(clients: seq<Client>, id: string): (r: seq<Client>)
    ensures forall i :: 0 <= i < |r| ==> r[i].oid != id
    ensures forall i :: 0 <= i < |clients| && clients[i].oid != id ==> clients[i] in r
    ensures forall i :: 0 <= i < |r| ==> r[i] in clients
  {
    Filter(clients, (c: Client) => c.oid != id)
  }

  /** Deleting removes the clients with that id and only those. */
  lemma WithoutIdRemovesOnlyThatId(clients: seq<Client>, id: string)
    ensures multiset(WithoutId(clients, id)) + multiset(Filter(clients, (c: Client) => c.oid == id)) == multiset(clients)
    ensures |WithoutId(clients, id)| + |Filter(clients, (c: Client) => c.oid == id)| == |clients|
  {
    FilterPartition(clients, (c: Client) => c.oid != id, (c: Client) => c.oid == id);
  }

  /** Deleting an id no client has leaves the list as it was. */
  lemma WithoutAbsentId(clients: seq<Client>, id: string)
    requires forall i :: 0 <= i < |clients| ==> clients[i].oid != id
    ensures WithoutId(clients, id) == clients
  {
    FilterAll(clients, (c: Client) => c.oid != id);
  }

  class ClientsListPage {
    var clients: seq<Client>
    var query: string
    var page: int
    /** Ids whose deletion was requested, oldest first. */
    var deletions: seq<string>

    constructor (loaded: seq<Client>)
      ensures clients == loaded && query == "" && page == 1 && deletions == []
    {
      clients, query, page, deletions := loaded, "", 1, [];
    }

    /** The clients the table shows. */
    function PageRows(): (r: seq<Client>)
      reads this
      ensures |r| <= PAGE_SIZE
      ensures forall k :: 0 <= k < |r| ==> r[k] in clients && Matches(r[k], query)
    {
      Pagination.PageData(Filtered(clients, query), page, PAGE_SIZE)
    }

    /** The Delete button: `confirmed` is the user's answer to the prompt,
        `api` how the delete request ends (a failure leaves the list as it was). */
    method HandleDelete(id: string, confirmed: bool, api: ApiOutcome)
      modifies this
      ensures !confirmed ==> clients == old(clients) && deletions == old(deletions)
      ensures confirmed ==> deletions == old(deletions) + [id]
      ensures confirmed && api.Succeeded? ==> clients == WithoutId(old(clients), id)
      ensures confirmed && api.FailedWith? ==> clients == old(clients)
      ensures query == old(query) && page == old(page)
    {
      if !confirmed {
        return;
      }
      deletions := deletions + [id];
      if api.Succeeded? {
        clients := WithoutId(clients, id);
      }
    }
  }
}
