/** Threads and fresh post ids in the forum store: `src/forumforge/database.py`. */
module Forum {
  import opened PyText
  import opened Slugs

  // ---- State ----

  datatype Post = Post(id: nat, authorName: string, authorSlug: string, body: string, isOpener: bool,
                       reactions: seq<string>, accepted: bool)

  datatype Thread = Thread(slug: string, forumSlug: string, forumName: string, title: string, authorName: string,
                           authorSlug: string, body: string, tags: seq<string>, posts: seq<Post>, locked: bool)

  datatype Entry = Entry(title: string, note: string)

  datatype Store = Store(nextPostId: nat, threads: map<string, Thread>, names: map<string, string>,
                         inbox: map<string, seq<string>>, queue: seq<Entry>)

  const EMPTY := Store(1, map[], map[], map[], [])

  datatype Step =
    | CreateThread(forumSlug: string, forumName: string, author: string, title: string, body: string, tags: seq<string>)
    | AddReply(slug: string, author: string, body: string)
    | AddReaction(slug: string, postId: nat, kind: string)
    | AcceptAnswer(slug: string, postId: nat)
    | Lock(slug: string)

  /** `_find_post` */
  function FindPost(posts: seq<Post>, id: nat): (i: int)
    ensures -1 <= i < |posts| && (i >= 0 ==> posts[i].id == id && forall j :: 0 <= j < i ==> posts[j].id != id)
    ensures i < 0 ==> forall j :: 0 <= j < |posts| ==> posts[j].id != id
  {
    if |posts| == 0 then -1
    else if posts[0].id == id then 0
    else
      var i := FindPost(posts[1..], id);
      if i < 0 then -1 else i + 1
  }

  /** `_upsert_queue_entry` */
  function Upserted(queue: seq<Entry>, e: Entry): seq<Entry> {
    if |queue| == 0 then [e]
    else if queue[0].title == e.title then [e] + queue[1..]
    else [queue[0]] + Upserted(queue[1..], e)
  }

  function Notified(inbox: map<string, seq<string>>, member: string, note: string): map<string, seq<string>> {
    inbox[member := (if member in inbox then inbox[member] else []) + [note]]
  }

  function WithPost(t: Thread, i: nat, p: Post): Thread
    requires i < |t.posts|
  {
    t.(posts := t.posts[i := p])
  }

  /** Where the source raises a `KeyError`, before it changes anything. */
  predicate Fails(s: Store, step: Step) {
    match step
    case CreateThread(_, _, _, _, _, _) => false
    case AddReply(slug, _, _) => slug !in s.threads
    case AddReaction(slug, id, _) => slug !in s.threads || FindPost(s.threads[slug].posts, id) < 0
    case AcceptAnswer(slug, id) => slug !in s.threads || FindPost(s.threads[slug].posts, id) < 0
    case Lock(slug) => slug !in s.threads
  }

  /** `slug` is the slug that the search finds for a new thread. */
  ghost function Next(s: Store, step: Step, slug: string): Store {
    if Fails(s, step) then s
    else
      match step
      case CreateThread(forumSlug, forumName, author, title, body, tags) =>
        var member := Slugify(author);
        var opener := Post(s.nextPostId, author, member, body, true, [], false);
        s.(nextPostId := s.nextPostId + 1, names := s.names[member := author],
           threads := s.threads[slug := Thread(slug, forumSlug, forumName, title, author, member, body, tags, [opener],
             false)])
      case AddReply(to, author, body) =>
        var t, member := s.threads[to], Slugify(author);
        var reply := Post(s.nextPostId, author, member, body, false, [], false);
        s.(nextPostId := s.nextPostId + 1, names := s.names[member := author],
           threads := s.threads[to := t.(posts := t.posts + [reply])],
           inbox := Notified(s.inbox, t.authorSlug, "New reply on your thread: " + t.title))
      case AddReaction(to, id, kind) =>
        var t := s.threads[to];
        var i := FindPost(t.posts, id);
        s.(threads := s.threads[to := WithPost(t, i, t.posts[i].(reactions := t.posts[i].reactions + [kind]))])
      case AcceptAnswer(to, id) =>
        var t := s.threads[to];
        var i := FindPost(t.posts, id);
        s.(threads := s.threads[to := WithPost(t, i, t.posts[i].(accepted := true))],
           inbox := Notified(s.inbox, t.authorSlug, "Accepted answer on your thread: " + t.title))
      case Lock(to) =>
        var t := s.threads[to];
        s.(threads := s.threads[to := t.(locked := true)],
          queue := Upserted(s.queue, Entry(t.title, "Locked thread needs follow-up")))
  }

  // ---- Invariant ----

  ghost predicate HasPost(s: Store, slug: string, i: int, id: nat) {
    slug in s.threads && 0 <= i < |s.threads[slug].posts| && s.threads[slug].posts[i].id == id
  }

  /** Every thread is stored under its own slug, which slugifying leaves alone; post ids are below the next id and
      unique in the whole store, and no title is queued twice. */
  ghost predicate Good(s: Store) {
    (forall slug :: slug in s.threads ==> s.threads[slug].slug == slug && IsSlug(slug)) && IdsUnique(s) &&
    (forall i, j :: 0 <= i < j < |s.queue| ==> s.queue[i].title != s.queue[j].title)
  }

  ghost predicate IdsUnique(s: Store) {
    s.nextPostId >= 1 &&
    (forall slug, i, id: nat :: HasPost(s, slug, i, id) ==> 1 <= id < s.nextPostId) &&
    (forall slug, i, slug', i', id: nat :: HasPost(s, slug, i, id) && HasPost(s, slug', i', id) ==>
      slug == slug' && i == i')
  }

  /** A new thread gets a free slug. */
  ghost predicate FreshSlug(s: Store, step: Step, slug: string) {
    step.CreateThread? ==>
      exists n: nat :: FirstFree(s.threads.Keys, Slugify(step.title), n) && slug == Candidate(Slugify(step.title), n)
  }

  lemma {:induction false} UpsertedTitles(queue: seq<Entry>, e: Entry)
    requires forall i, j :: 0 <= i < j < |queue| ==> queue[i].title != queue[j].title
    ensures var q := Upserted(queue, e);
      (forall i, j :: 0 <= i < j < |q| ==> q[i].title != q[j].title) &&
      (forall x :: x in q <==> x == e || (x in queue && x.title != e.title))
  {
    if |queue| != 0 {
      assert forall x :: x in queue <==> x == queue[0] || x in queue[1..];
      if queue[0].title != e.title {
        UpsertedTitles(queue[1..], e);
        var rest := Upserted(queue[1..], e);
        forall j | 0 <= j < |rest| ensures rest[j].title != queue[0].title {
          assert rest[j] in rest;
        }
      }
    }
  }

  /** The posts of a store after a step that succeeds: at most one is new, with the next id, in a place that was
      empty. */
  lemma {:induction false} NextPosts(s: Store, step: Step, slug: string, at: string, i: int, id: nat)
    requires Good(s) && FreshSlug(s, step, slug) && HasPost(Next(s, step, slug), at, i, id)
    ensures HasPost(s, at, i, id) ||
      (Next(s, step, slug).nextPostId == s.nextPostId + 1 && id == s.nextPostId && Fresh(s, step, slug, at, i))
  {
    hide Slugify, Upserted, Good;
  }

  /** Where a step puts its new post. */
  predicate Fresh(s: Store, step: Step, slug: string, at: string, i: int) {
    (step.CreateThread? && at == slug && i == 0) ||
    (step.AddReply? && at == step.slug && at in s.threads && i == |s.threads[at].posts|)
  }

  lemma {:induction false} NextGood(s: Store, step: Step, slug: string)
    requires Good(s) && FreshSlug(s, step, slug)
    ensures Good(Next(s, step, slug))
  {
    hide IsSlug, Slugify, Upserted, IdsUnique;
    NextIdsUnique(s, step, slug);
    if step.CreateThread? {
      var k: nat :| slug == Candidate(Slugify(step.title), k);
      SlugifyGivesSlug(step.title);
      CandidateIsSlug(Slugify(step.title), k);
    } else if step.Lock? && !Fails(s, step) {
      UpsertedTitles(s.queue, Entry(s.threads[step.slug].title, "Locked thread needs follow-up"));
    }
  }

  lemma {:induction false} NextIdsUnique(s: Store, step: Step, slug: string)
    requires Good(s) && FreshSlug(s, step, slug)
    ensures IdsUnique(Next(s, step, slug))
  {
    var n := Next(s, step, slug);
    assert s.nextPostId <= n.nextPostId && IdsUnique(s);
    hide Next, Good, FreshSlug;
    forall at, i, id: nat | HasPost(n, at, i, id) ensures 1 <= id < n.nextPostId {
      NextPosts(s, step, slug, at, i, id);
    }
    forall at, i, at', i', id: nat | HasPost(n, at, i, id) && HasPost(n, at', i', id) ensures at == at' && i == i' {
      NextPosts(s, step, slug, at, i, id);
      NextPosts(s, step, slug, at', i', id);
    }
  }

  // ---- Runs ----

  /** A step, and the slug that was free for it if it makes a thread. */
  datatype Event = Event(step: Step, slug: string)

  ghost predicate Possible(s: Store, events: seq<Event>)
    decreases |events|
  {
    |events| == 0 ||
    (FreshSlug(s, events[0].step, events[0].slug) && Possible(Next(s, events[0].step, events[0].slug), events[1..]))
  }

  ghost function Run(s: Store, events: seq<Event>): Store
    decreases |events|
  {
    if |events| == 0 then s else Run(Next(s, events[0].step, events[0].slug), events[1..])
  }

  /** `n` is the post `p` later: only reactions are added, and acceptance is never withdrawn. */
  predicate PostGrows(p: Post, n: Post) {
    n.(reactions := p.reactions, accepted := p.accepted) == p && p.reactions <= n.reactions &&
    (p.accepted ==> n.accepted)
  }

  /** `n` is the thread `t` later: posts are added at the end, and locking is never undone. */
  ghost predicate Grows(t: Thread, n: Thread) {
    n.(posts := t.posts, locked := t.locked) == t && (t.locked ==> n.locked) && |t.posts| <= |n.posts| &&
    forall i :: 0 <= i < |t.posts| ==> PostGrows(t.posts[i], n.posts[i])
  }

  lemma {:induction false} NextGrows(s: Store, step: Step, slug: string, at: string)
    requires FreshSlug(s, step, slug) && at in s.threads
    ensures at in Next(s, step, slug).threads && Grows(s.threads[at], Next(s, step, slug).threads[at])
  {
    hide Slugify, Upserted;
  }

  lemma GrowsTransitive(a: Thread, b: Thread, c: Thread)
    requires Grows(a, b) && Grows(b, c)
    ensures Grows(a, c)
  {
    forall i | 0 <= i < |a.posts| ensures PostGrows(a.posts[i], c.posts[i]) {
      assert PostGrows(a.posts[i], b.posts[i]) && PostGrows(b.posts[i], c.posts[i]);
    }
  }

  /** No thread is ever lost or overwritten, whatever the titles of later ones. */
  lemma {:induction false} ThreadsOnlyGrow(s: Store, events: seq<Event>, at: string)
    requires Possible(s, events) && at in s.threads
    ensures at in Run(s, events).threads && Grows(s.threads[at], Run(s, events).threads[at])
    decreases |events|
  {
    if |events| != 0 {
      var n := Next(s, events[0].step, events[0].slug);
      NextGrows(s, events[0].step, events[0].slug, at);
      hide Next, Grows;
      ThreadsOnlyGrow(n, events[1..], at);
      GrowsTransitive(s.threads[at], n.threads[at], Run(n, events[1..]).threads[at]);
    }
  }

  /** Every reachable store: keys are slugs, and post ids are globally unique and below the next one. */
  lemma {:induction false} RunGood(s: Store, events: seq<Event>)
    requires Good(s) && Possible(s, events)
    ensures Good(Run(s, events))
    decreases |events|
  {
    if |events| != 0 {
      NextGood(s, events[0].step, events[0].slug);
      hide Next, Good;
      RunGood(Next(s, events[0].step, events[0].slug), events[1..]);
    }
  }

  /** A reply can be found by its id ever after, in the thread it was made in and in no other. */
  lemma {:induction false} ReplyIsFound(s: Store, reply: Step, events: seq<Event>, at: string)
    requires Good(s) && reply.AddReply? && reply.slug in s.threads && Possible(Next(s, reply, ""), events)
    requires at in Run(Next(s, reply, ""), events).threads
    ensures FindPost(Run(Next(s, reply, ""), events).threads[at].posts, s.nextPostId) >= 0 <==> at == reply.slug
  {
    var n := Next(s, reply, "");
    var end := Run(n, events);
    var i := |s.threads[reply.slug].posts|;
    assert n.threads[reply.slug].posts[i].id == s.nextPostId;
    NextGood(s, reply, "");
    RunGood(n, events);
    ThreadsOnlyGrow(n, events, reply.slug);
    assert PostGrows(n.threads[reply.slug].posts[i], end.threads[reply.slug].posts[i]);
    assert HasPost(end, reply.slug, i, s.nextPostId);
    var k := FindPost(end.threads[at].posts, s.nextPostId);
    if k >= 0 { assert HasPost(end, at, k, s.nextPostId); }
  }
}
