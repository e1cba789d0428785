/** What the calls of a run leave behind in a thread, a post and an inbox. */
module ForumEffects {
  import opened PyText
  import opened Slugs
  import opened Forum

  predicate IsReply(step: Step, at: string) {
    step.AddReply? && step.slug == at
  }

  predicate IsReaction(step: Step, at: string, id: nat) {
    step.AddReaction? && step.slug == at && step.postId == id
  }

  /** The replies of a run to thread `at`, each as author and body. */
  function Replies(events: seq<Event>, at: string): seq<(string, string)> {
    if |events| == 0 then []
    else
      (if IsReply(events[0].step, at) then [(events[0].step.author, events[0].step.body)] else []) +
      Replies(events[1..], at)
  }

  /** The reactions of a run to post `id` of thread `at`. */
  function Kinds(events: seq<Event>, at: string, id: nat): seq<string> {
    if |events| == 0 then []
    else (if IsReaction(events[0].step, at, id) then [events[0].step.kind] else []) + Kinds(events[1..], at, id)
  }

  ghost predicate Happens(events: seq<Event>, step: Step) {
    exists i :: 0 <= i < |events| && events[i].step == step
  }

  lemma HappensFirst(events: seq<Event>, step: Step)
    requires |events| != 0
    ensures Happens(events, step) <==> events[0].step == step || Happens(events[1..], step)
  {
    if i :| 0 <= i < |events| && events[i].step == step {
      if i > 0 { assert events[1..][i - 1].step == step; }
    }
  }

  /** What a step does to a thread there before. */
  ghost predicate ThreadAfter(s: Store, step: Step, at: string, n: Store)
    requires at in s.threads
  {
    at in n.threads &&
    var t, u := s.threads[at], n.threads[at];
    (u.locked <==> t.locked || step == Lock(at)) && |u.posts| == |t.posts| + (if IsReply(step, at) then 1 else 0) &&
    (forall i :: 0 <= i < |t.posts| ==> PostAfter(t.posts[i], step, at, u.posts[i])) &&
    (IsReply(step, at) ==>
      var p := u.posts[|t.posts|];
      p.authorName == step.author && p.body == step.body && p.id == s.nextPostId && !p.accepted && p.reactions == [])
  }

  /** One step: a thread there before keeps its place and posts; it is locked, its posts accepted and reacted to, and a
      reply added to it, by just the steps that say so. */
  lemma {:induction false} StepOn(s: Store, step: Step, slug: string, at: string)
    requires Good(s) && FreshSlug(s, step, slug) && at in s.threads
    ensures ThreadAfter(s, step, at, Next(s, step, slug))
  {
    if (step.AddReaction? || step.AcceptAnswer?) && step.slug == at {
      StepOnPost(s, step, slug, at);
    } else {
      StepOnRest(s, step, slug, at);
    }
  }

  lemma StepOnPost(s: Store, step: Step, slug: string, at: string)
    requires Good(s) && at in s.threads && (step.AddReaction? || step.AcceptAnswer?) && step.slug == at
    ensures ThreadAfter(s, step, at, Next(s, step, slug))
  {
    var t := s.threads[at];
    forall i, k | 0 <= i < |t.posts| && 0 <= k < |t.posts| && t.posts[i].id == t.posts[k].id ensures i == k {
      assert HasPost(s, at, i, t.posts[i].id) && HasPost(s, at, k, t.posts[i].id);
    }
    hide Slugify, Upserted, Notified, Good, PostAfter, FindPost;
    if !Fails(s, step) {
      var k := FindPost(t.posts, step.postId);
      var p := t.posts[k];
      var q := if step.AddReaction? then p.(reactions := p.reactions + [step.kind]) else p.(accepted := true);
      assert Next(s, step, slug).threads[at] == WithPost(t, k, q);
      forall i | 0 <= i < |t.posts| ensures PostAfter(t.posts[i], step, at, WithPost(t, k, q).posts[i]) {
        OnePost(t, step, at, k, q, i);
      }
    } else {
      forall i | 0 <= i < |t.posts| ensures PostAfter(t.posts[i], step, at, t.posts[i]) { NoPost(t, step, at, i); }
    }
  }

  lemma OnePost(t: Thread, step: Step, at: string, k: int, q: Post, i: int)
    requires 0 <= k < |t.posts| && 0 <= i < |t.posts| && (t.posts[i].id == t.posts[k].id ==> i == k)
    requires (step.AddReaction? || step.AcceptAnswer?) && step.slug == at && step.postId == t.posts[k].id
    requires q == if step.AddReaction? then t.posts[k].(reactions := t.posts[k].reactions + [step.kind])
      else t.posts[k].(accepted := true)
    ensures PostAfter(t.posts[i], step, at, WithPost(t, k, q).posts[i])
  {
  }

  lemma NoPost(t: Thread, step: Step, at: string, i: int)
    requires 0 <= i < |t.posts| && (step.AddReaction? || step.AcceptAnswer?) && FindPost(t.posts, step.postId) < 0
    ensures PostAfter(t.posts[i], step, at, t.posts[i])
  {
  }

  lemma StepOnRest(s: Store, step: Step, slug: string, at: string)
    requires FreshSlug(s, step, slug) && at in s.threads &&
      !((step.AddReaction? || step.AcceptAnswer?) && step.slug == at)
    ensures ThreadAfter(s, step, at, Next(s, step, slug))
  {
    hide Slugify, Upserted, Notified;
  }

  predicate PostAfter(p: Post, step: Step, at: string, n: Post) {
    n.id == p.id && n.body == p.body && n.authorName == p.authorName &&
    (n.accepted <==> p.accepted || step == AcceptAnswer(at, p.id)) &&
    n.reactions == p.reactions + if IsReaction(step, at, p.id) then [step.kind] else []
  }

  /** Over every run: a thread is locked in the end if and only if it was or the run locks it. */
  lemma {:induction false} LockedIff(s: Store, events: seq<Event>, at: string)
    requires Good(s) && Possible(s, events) && at in s.threads
    ensures at in Run(s, events).threads
    ensures Run(s, events).threads[at].locked <==> s.threads[at].locked || Happens(events, Lock(at))
    decreases |events|
  {
    hide Good, Next, FreshSlug, Happens;
    if |events| != 0 {
      var n := Next(s, events[0].step, events[0].slug);
      StepOn(s, events[0].step, events[0].slug, at);
      NextGood(s, events[0].step, events[0].slug);
      LockedIff(n, events[1..], at);
      HappensFirst(events, Lock(at));
    } else {
      NothingHappens(events, Lock(at));
    }
  }

  lemma NothingHappens(events: seq<Event>, step: Step)
    requires |events| == 0
    ensures !Happens(events, step)
  {
  }

  /** A post is accepted in the end if and only if it was or the run accepts it; and its reactions are those it had and
      then those of the run, in order. */
  lemma {:induction false} PostInTheEnd(s: Store, events: seq<Event>, at: string, i: int)
    requires Good(s) && Possible(s, events) && at in s.threads && 0 <= i < |s.threads[at].posts|
    ensures at in Run(s, events).threads && i < |Run(s, events).threads[at].posts|
    ensures var p, n := s.threads[at].posts[i], Run(s, events).threads[at].posts[i];
      n.id == p.id && n.body == p.body && n.authorName == p.authorName &&
      (n.accepted <==> p.accepted || Happens(events, AcceptAnswer(at, p.id))) &&
      n.reactions == p.reactions + Kinds(events, at, p.id)
    decreases |events|
  {
    hide Good, Next, FreshSlug, Happens;
    var p := s.threads[at].posts[i];
    if |events| != 0 {
      var n := Next(s, events[0].step, events[0].slug);
      StepOn(s, events[0].step, events[0].slug, at);
      NextGood(s, events[0].step, events[0].slug);
      assert PostAfter(p, events[0].step, at, n.threads[at].posts[i]);
      PostInTheEnd(n, events[1..], at, i);
      HappensFirst(events, AcceptAnswer(at, p.id));
    } else {
      NothingHappens(events, AcceptAnswer(at, p.id));
    }
  }

  function Said(posts: seq<Post>): seq<(string, string)> {
    if |posts| == 0 then [] else [(posts[0].authorName, posts[0].body)] + Said(posts[1..])
  }

  lemma {:induction false} SaidConcat(a: seq<Post>, b: seq<Post>)
    ensures Said(a + b) == Said(a) + Said(b)
  {
    if |a| == 0 {
      assert a + b == b;
    } else {
      assert (a + b)[1..] == a[1..] + b;
      SaidConcat(a[1..], b);
    }
  }

  lemma {:induction false} SaidSame(a: seq<Post>, b: seq<Post>)
    requires |a| == |b| && forall i :: 0 <= i < |a| ==> a[i].authorName == b[i].authorName && a[i].body == b[i].body
    ensures Said(a) == Said(b)
  {
    if |a| != 0 { SaidSame(a[1..], b[1..]); }
  }

  lemma StepSays(s: Store, step: Step, at: string, n: Store)
    requires at in s.threads && ThreadAfter(s, step, at, n)
    ensures Said(n.threads[at].posts) ==
      Said(s.threads[at].posts) + if IsReply(step, at) then [(step.author, step.body)] else []
  {
    hide Said;
    var before, after := s.threads[at].posts, n.threads[at].posts;
    forall i | 0 <= i < |before|
      ensures before[i].authorName == after[i].authorName && before[i].body == after[i].body
    {
      assert PostAfter(before[i], step, at, after[i]);
    }
    SaidSame(before, after[..|before|]);
    assert after == after[..|before|] + after[|before|..];
    SaidConcat(after[..|before|], after[|before|..]);
    OneSaid(after[|before|..]);
  }

  /** A thread says in the end what it said, and then the replies of the run, in order. */
  lemma {:induction false} RepliesAreAdded(s: Store, events: seq<Event>, at: string)
    requires Good(s) && Possible(s, events) && at in s.threads
    ensures at in Run(s, events).threads
    ensures Said(Run(s, events).threads[at].posts) == Said(s.threads[at].posts) + Replies(events, at)
    decreases |events|
  {
    hide Good, Next, FreshSlug, Said;
    if |events| != 0 {
      var step := events[0].step;
      var n := Next(s, step, events[0].slug);
      StepOn(s, step, events[0].slug, at);
      NextGood(s, step, events[0].slug);
      StepSays(s, step, at, n);
      hide ThreadAfter;
      RepliesAreAdded(n, events[1..], at);
    }
  }

  lemma OneSaid(posts: seq<Post>)
    requires |posts| <= 1
    ensures Said(posts) == if |posts| == 0 then [] else [(posts[0].authorName, posts[0].body)]
  {
    if |posts| == 1 { assert posts[1..] == []; }
  }

  // ---- New threads ----

  /** A thread that is made has what it was given, one post, and no lock. */
  lemma {:induction false} ThreadIsMade(s: Store, step: Step, slug: string)
    requires Good(s) && step.CreateThread? && FreshSlug(s, step, slug)
    ensures slug !in s.threads && Next(s, step, slug).threads.Keys == s.threads.Keys + {slug}
    ensures var t := Next(s, step, slug).threads[slug];
      t.title == step.title && t.forumSlug == step.forumSlug && t.authorName == step.author && t.body == step.body &&
      t.tags == step.tags && !t.locked && |t.posts| == 1 &&
      var p := t.posts[0];
      p.id == s.nextPostId && p.authorName == step.author && p.body == step.body && p.isOpener && !p.accepted &&
      p.reactions == []
  {
    hide Slugify;
  }

  // ---- Notes and the queue ----

  /** What the author of a thread is told. */
  function NoteFor(step: Step, title: string): string {
    if step.AddReply? then "New reply on your thread: " + title else "Accepted answer on your thread: " + title
  }

  function NotesOf(s: Store, member: string): seq<string> {
    if member in s.inbox then s.inbox[member] else []
  }

  /** A reply or an accepted answer leaves one note with the author of the thread; nothing else leaves any. */
  lemma {:induction false} NotesIff(s: Store, step: Step, slug: string, member: string)
    ensures NotesOf(Next(s, step, slug), member) == NotesOf(s, member) +
      if (step.AddReply? || step.AcceptAnswer?) && !Fails(s, step) && s.threads[step.slug].authorSlug == member
      then [NoteFor(step, s.threads[step.slug].title)] else []
  {
    hide Slugify, Upserted;
  }

  /** Locking a thread queues its title with the note about it, and changes no other title's note; no other step changes
      the queue. */
  lemma {:induction false} QueuedIff(s: Store, step: Step, slug: string, e: Entry)
    requires Good(s)
    ensures e in Next(s, step, slug).queue <==>
      if step.Lock? && step.slug in s.threads && e.title == s.threads[step.slug].title
      then e.note == "Locked thread needs follow-up" else e in s.queue
  {
    hide Slugify, Upserted, Notified;
    if step.Lock? && !Fails(s, step) {
      var x := Entry(s.threads[step.slug].title, "Locked thread needs follow-up");
      UpsertedTitles(s.queue, x);
      assert e == x <==> e.title == x.title && e.note == x.note;
    }
  }
}
