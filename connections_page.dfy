/** The connections page: a search box narrows the list of connections. */
module Connections {
  import opened Lists
  import opened Text

  datatype Connection = Connection(
    id: int,
    name: string,
    avatar: string,
    title: string,
    company: string,
    mutualConnections: int,
    skills: seq<string>,
    isNew: bool)

  /** The query, ignoring case, occurs in the name, title, company or some skill. */
  predicate ConnectionMatches(c: Connection, query: string)
  {
    || MatchesQuery(c.name, query)
    || MatchesQuery(c.title, query)
    || MatchesQuery(c.company, query)
    || exists k :: 0 <= k < |c.skills| && MatchesQuery(c.skills[k], query)
  }

  /** `filteredConnections`: the matching connections, in their original order. */
  function FilterConnections(connections: seq<Connection>, query: string): (r: seq<Connection>)
    ensures IsSublist(r, connections)
    ensures forall i :: 0 <= i < |r| ==> ConnectionMatches(r[i], query)
    ensures forall i :: 0 <= i < |connections| && ConnectionMatches(connections[i], query) ==>
              connections[i] in r
  {
    Filter(connections, c => ConnectionMatches(c, query))
  }

  /** The match stated with the reference meaning of substring. */
  ghost predicate ConnectionMatchesSpec(c: Connection, query: string)
  {
    || Occurs(Lower(query), Lower(c.name))
    || Occurs(Lower(query), Lower(c.title))
    || Occurs(Lower(query), Lower(c.company))
    || exists k :: 0 <= k < |c.skills| && Occurs(Lower(query), Lower(c.skills[k]))
  }

  lemma ConnectionMatchesMeaning(c: Connection, query: string)
    ensures ConnectionMatches(c, query) <==> ConnectionMatchesSpec(c, query)
  {
    ContainsMeansOccurs(Lower(c.name), Lower(query));
    ContainsMeansOccurs(Lower(c.title), Lower(query));
    ContainsMeansOccurs(Lower(c.company), Lower(query));
    forall k | 0 <= k < |c.skills|
      ensures MatchesQuery(c.skills[k], query) <==> Occurs(Lower(query), Lower(c.skills[k]))
    {
      ContainsMeansOccurs(Lower(c.skills[k]), Lower(query));
    }
  }

  /** A connection is shown exactly when the lower-cased query is a substring
      of its lower-cased name, title, company or one of its skills. */
  lemma FilterConnectionsKeepsExactly(connections: seq<Connection>, query: string, c: Connection)
    ensures c in FilterConnections(connections, query) <==>
      c in connections && ConnectionMatchesSpec(c, query)
  {
    ConnectionMatchesMeaning(c, query);
  }

  /** An empty query shows every connection. */
  lemma EmptySearchShowsAll(connections: seq<Connection>)
    ensures FilterConnections(connections, "") == connections
  {
    forall c | c in connections ensures ConnectionMatches(c, "") {
      EmptyQueryMatches(c.name);
    }
    FilterKeepsAll(connections, c => ConnectionMatches(c, ""));
  }

  /** Queries that differ only in letter case show the same connections. */
  lemma FilterConnectionsIgnoresCase(connections: seq<Connection>, q1: string, q2: string)
    requires Lower(q1) == Lower(q2)
    ensures FilterConnections(connections, q1) == FilterConnections(connections, q2)
  {
    FilterCongruent(connections, c => ConnectionMatches(c, q1), c => ConnectionMatches(c, q2));
  }

  /** The two branches of the results grid. */
  datatype Results = Cards(shown: seq<Connection>) | NoneFound

  function ResultsView(connections: seq<Connection>, query: string): (r: Results)
    ensures r.Cards? ==> r.shown == FilterConnections(connections, query) && r.shown != []
  {
    var shown := FilterConnections(connections, query);
    if |shown| > 0 then Cards(shown) else NoneFound
  }

  /** "No connections found" is shown exactly when no connection matches. */
  lemma NoneFoundIffNoMatch(connections: seq<Connection>, query: string)
    ensures ResultsView(connections, query) == NoneFound <==>
      forall i :: 0 <= i < |connections| ==> !ConnectionMatches(connections[i], query)
  {
  }
}
