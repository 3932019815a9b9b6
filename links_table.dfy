/** The `links` table, keyed by its primary key `id`. */
module LinksTable {
  import opened Wrappers
  import opened Records

  /**
   * Every row is stored under its own `id`, and its `shortCode` is that same
   * string: the handler that inserts rows uses one value for both columns.
   */
  ghost predicate KeyedByCode(links: map<string, Link>)
  {
    forall k :: k in links ==> links[k].id == k && links[k].shortCode == k
  }

  /**
   * `SELECT ... FROM links WHERE short_code = ?` followed by `fetchone()`.
   * The query filters on `short_code`, not on the key; because the two
   * columns agree, at most one row matches and it is found by key.
   */
  function FindByCode(links: map<string, Link>, code: string): (r: Option<Link>)
    requires KeyedByCode(links)
    ensures r.Some? <==> exists k :: k in links && links[k].shortCode == code
    ensures forall k :: k in links && links[k].shortCode == code ==> r == Some(links[k])
  {
    if code in links then Some(links[code]) else None
  }

  /** Inserting a row whose `id` equals its `shortCode` under a fresh key keeps the table keyed, and the code then finds that row. */
  lemma InsertResolves(links: map<string, Link>, link: Link)
    requires KeyedByCode(links)
    requires link.id == link.shortCode && link.id !in links
    ensures KeyedByCode(links[link.id := link])
    ensures FindByCode(links[link.id := link], link.shortCode) == Some(link)
    ensures |links[link.id := link]| == |links| + 1
  {
  }
}
