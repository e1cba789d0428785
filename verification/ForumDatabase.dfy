/** The forum store as an object. */
module ForumDatabase {
  import opened PyText
  import opened Slugs
  import opened Forum

  class ForumForgeDatabase {
    const forums: map<string, string>
    var nextPostId: nat
    var threads: map<string, Thread>
    var memberNames: map<string, string>
    var memberInbox: map<string, seq<string>>
    var moderationQueue: seq<Entry>

    function View(): Store
      reads this
    {
      Store(nextPostId, threads, memberNames, memberInbox, moderationQueue)
    }

    constructor (forums: map<string, string>)
      ensures View() == EMPTY && this.forums == forums && Good(View())
    {
      this.forums := forums;
      nextPostId, threads, memberNames, memberInbox, moderationQueue := 1, map[], map[], map[], [];
    }

    method AllocatePostId() returns (id: nat)
      modifies this`nextPostId
      ensures id == old(nextPostId) && nextPostId == id + 1
    {
      id := nextPostId;
      nextPostId := nextPostId + 1;
    }

    /** `_find_post`; -1 for its `KeyError`. */
    method Find(posts: seq<Post>, id: nat) returns (at: int)
      ensures at == FindPost(posts, id)
    {
      for i := 0 to |posts|
        invariant forall j :: 0 <= j < i ==> posts[j].id != id
      {
        if posts[i].id == id {
          return i;
        }
      }
      return -1;
    }

    method Notify(member: string, note: string)
      modifies this`memberInbox
      ensures memberInbox == Notified(old(memberInbox), member, note)
    {
      var notes := if member in memberInbox then memberInbox[member] else [];
      memberInbox := memberInbox[member := notes + [note]];
    }

    /** `create_thread`; nothing happens for an unknown forum. */
    method CreateThread(forumSlug: string, author: string, title: string, body: string, tags: seq<string>)
      returns (slug: Option<string>)
      modifies this
      ensures slug.None? <==> forumSlug !in forums
      ensures slug.None? ==> View() == old(View())
      ensures slug.Some? ==> var step := Step.CreateThread(forumSlug, forums[forumSlug], author, title, body, tags);
        FreshSlug(old(View()), step, slug.value) && View() == Next(old(View()), step, slug.value)
    {
      hide Slugify;
      if forumSlug !in forums {
        return None;
      }
      var member := Slugify(author);
      memberNames := memberNames[member := author];
      var free := UniqueSlug(threads.Keys, title);
      var id := AllocatePostId();
      var opener := Post(id, author, member, body, true, [], false);
      threads := threads[free := Thread(free, forumSlug, forums[forumSlug], title, author, member, body, tags, [opener],
        false)];
      slug := Some(free);
    }

    method AddReply(slug: string, author: string, body: string) returns (id: Option<nat>)
      modifies this
      ensures id == if slug in old(threads) then Some(old(nextPostId)) else None
      ensures View() == Next(old(View()), Step.AddReply(slug, author, body), "")
    {
      hide Slugify;
      if slug !in threads {
        return None;
      }
      var thread := threads[slug];
      var member := Slugify(author);
      memberNames := memberNames[member := author];
      var postId := AllocatePostId();
      threads := threads[slug := thread.(posts := thread.posts +
        [Post(postId, author, member, body, false, [], false)])];
      Notify(thread.authorSlug, "New reply on your thread: " + thread.title);
      return Some(postId);
    }

    method AddReaction(slug: string, postId: nat, kind: string) returns (ok: bool)
      modifies this`threads
      ensures ok == !Fails(old(View()), Step.AddReaction(slug, postId, kind))
      ensures View() == Next(old(View()), Step.AddReaction(slug, postId, kind), "")
    {
      if slug !in threads {
        return false;
      }
      var thread := threads[slug];
      var i := Find(thread.posts, postId);
      if i < 0 {
        return false;
      }
      var post := thread.posts[i];
      threads := threads[slug := WithPost(thread, i, post.(reactions := post.reactions + [kind]))];
      return true;
    }

    method AcceptAnswer(slug: string, postId: nat) returns (ok: bool)
      modifies this`threads, this`memberInbox
      ensures ok == !Fails(old(View()), Step.AcceptAnswer(slug, postId))
      ensures View() == Next(old(View()), Step.AcceptAnswer(slug, postId), "")
    {
      if slug !in threads {
        return false;
      }
      var thread := threads[slug];
      var i := Find(thread.posts, postId);
      if i < 0 {
        return false;
      }
      threads := threads[slug := WithPost(thread, i, thread.posts[i].(accepted := true))];
      Notify(thread.authorSlug, "Accepted answer on your thread: " + thread.title);
      return true;
    }

    /** `moderate_thread`; only the state `locked` does anything. */
    method ModerateThread(slug: string, state: string) returns (ok: bool)
      modifies this`threads, this`moderationQueue
      ensures ok == (slug in old(threads))
      ensures View() == if state == "locked" then Next(old(View()), Step.Lock(slug), "") else old(View())
    {
      if slug !in threads {
        return false;
      }
      if state == "locked" {
        var thread := threads[slug];
        threads := threads[slug := thread.(locked := true)];
        UpsertQueueEntry(Entry(thread.title, "Locked thread needs follow-up"));
      }
      return true;
    }

    /** `_upsert_queue_entry` */
    method UpsertQueueEntry(e: Entry)
      modifies this`moderationQueue
      ensures moderationQueue == Upserted(old(moderationQueue), e)
    {
      hide Upserted;
      var queue := moderationQueue;
      for i := 0 to |queue|
        invariant moderationQueue == queue
        invariant Upserted(queue, e) == queue[..i] + Upserted(queue[i..], e)
      {
        UpsertedFrom(queue, i, e);
        if queue[i].title == e.title {
          moderationQueue := queue[i := e];
          assert moderationQueue == queue[..i] + ([e] + queue[i + 1..]);
          return;
        }
        assert queue[..i + 1] == queue[..i] + [queue[i]];
      }
      UpsertedFrom(queue, |queue|, e);
      moderationQueue := queue + [e];
    }
  }

  lemma UpsertedFrom(queue: seq<Entry>, i: nat, e: Entry)
    requires i <= |queue|
    ensures i == |queue| ==> Upserted(queue[i..], e) == [e]
    ensures i < |queue| && queue[i].title == e.title ==> Upserted(queue[i..], e) == [e] + queue[i + 1..]
    ensures i < |queue| && queue[i].title != e.title ==>
      Upserted(queue[i..], e) == [queue[i]] + Upserted(queue[i + 1..], e)
  {
    if i < |queue| { assert queue[i..][1..] == queue[i + 1..]; }
  }
}
