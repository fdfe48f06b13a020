/** The poll transport: at-least-once delivery of a thread's comments through an in-memory
    cursor per thread, under enumeration, resolve, read and handler faults, with comments
    arriving at any moment. */
module Poller {
  import opened Text

  type Thread = string

  datatype Comment = Comment(id: int, author: string, body: string)

  datatype Arrival = Arrival(thread: Thread, comment: Comment)

  type Threads = map<Thread, seq<Comment>>

  /** The code host: its threads, and the largest id each has ever given out. */
  datatype Host = Host(threads: Threads, top: map<Thread, int>)

  function CommentsOf(h: Host, t: Thread): seq<Comment> {
    if t in h.threads then h.threads[t] else []
  }

  /** The empty cursor reads from the start. */
  function CursorOf(cursors: map<Thread, int>, t: Thread): int {
    if t in cursors then cursors[t] else 0
  }

  /** The comments after the cursor, in order. */
  function After(comments: seq<Comment>, cursor: int): seq<Comment> {
    if comments == [] then []
    else var front, last := After(comments[..|comments| - 1], cursor), comments[|comments| - 1];
      if last.id <= cursor then front else front + [last]
  }

  lemma {:induction false} AfterHolds(comments: seq<Comment>, cursor: int, c: Comment)
    ensures c in After(comments, cursor) <==> c in comments && c.id > cursor
  {
    if comments != [] {
      var front := comments[..|comments| - 1];
      AfterHolds(front, cursor, c);
      assert comments == front + [comments[|comments| - 1]];
    }
  }

  /** The largest id, or the cursor when nothing is newer. */
  function Newest(comments: seq<Comment>, cursor: int): int {
    if comments == [] then cursor
    else var front, last := Newest(comments[..|comments| - 1], cursor), comments[|comments| - 1];
      if last.id > front then last.id else front
  }

  lemma {:induction false} NewestBounds(comments: seq<Comment>, cursor: int)
    ensures cursor <= Newest(comments, cursor)
    ensures forall c :: c in comments ==> c.id <= Newest(comments, cursor)
    ensures Newest(comments, cursor) == cursor || exists c :: c in comments && c.id == Newest(comments, cursor)
  {
    if comments != [] {
      var front := comments[..|comments| - 1];
      NewestBounds(front, cursor);
      assert comments == front + [comments[|comments| - 1]];
    }
  }

  /** GitHubChannel.Read, after the listing: numeric comparison, and the input cursor when
      nothing is new. */
  method Read(comments: seq<Comment>, cursor: int) returns (msgs: seq<Comment>, next: int)
    ensures msgs == After(comments, cursor)
    ensures next == Newest(After(comments, cursor), cursor)
  {
    msgs, next := [], cursor;
    for k := 0 to |comments|
      invariant msgs == After(comments[..k], cursor) && next == Newest(msgs, cursor)
    {
      assert comments[..k + 1][..k] == comments[..k];
      if comments[k].id <= cursor {
        continue;
      }
      ghost var before := msgs;
      msgs := msgs + [comments[k]];
      assert msgs[..|msgs| - 1] == before;
      if comments[k].id > next {
        next := comments[k].id;
      }
    }
    assert comments[..|comments|] == comments;
  }

  /** What the transport promises of one cursor: every comment at or below it was handled. */
  predicate Covered(comments: seq<Comment>, cursor: int, handled: set<(Thread, int)>, t: Thread) {
    forall c :: c in comments && 0 < c.id <= cursor ==> (t, c.id) in handled
  }

  predicate HostOk(h: Host) {
    forall t :: t in h.threads ==> forall c :: c in h.threads[t] ==> t in h.top && c.id <= h.top[t]
  }

  /** No cursor is ahead of the newest id on its thread, and each one is covered. */
  predicate CursorsOk(h: Host, cursors: map<Thread, int>, handled: set<(Thread, int)>) {
    forall t :: t in cursors ==> CursorOk(h, t, cursors[t], handled)
  }

  predicate CursorOk(h: Host, t: Thread, cursor: int, handled: set<(Thread, int)>) {
    0 <= cursor && (cursor > 0 ==> t in h.top && cursor <= h.top[t]) && Covered(CommentsOf(h, t), cursor, handled, t)
  }

  /** Comments were added, each with an id above every id its thread had. */
  ghost predicate Grown(a: Host, b: Host) {
    forall t :: GrownAt(a, b, t)
  }

  predicate GrownAt(a: Host, b: Host, t: Thread) {
    && CommentsOf(a, t) <= CommentsOf(b, t)
    && (t in a.top ==> t in b.top && a.top[t] <= b.top[t])
    && forall c :: c in CommentsOf(b, t)[|CommentsOf(a, t)|..] ==> t in a.top ==> c.id > a.top[t]
  }

  predicate AllHandled(h: Host, handled: set<(Thread, int)>, t: Thread) {
    forall c :: c in CommentsOf(h, t) && c.id > 0 ==> (t, c.id) in handled
  }

  lemma GrownRefl(h: Host)
    ensures Grown(h, h)
  {
  }

  lemma GrownTrans(a: Host, b: Host, c: Host)
    requires Grown(a, b) && Grown(b, c)
    ensures Grown(a, c)
  {
    forall t
      ensures GrownAt(a, c, t)
    {
      assert GrownAt(a, b, t) && GrownAt(b, c, t);
      GrownAtTrans(a, b, c, t);
    }
  }

  lemma GrownAtTrans(a: Host, b: Host, c: Host, t: Thread)
    requires GrownAt(a, b, t) && GrownAt(b, c, t)
    ensures GrownAt(a, c, t)
  {
    var x, y, z := CommentsOf(a, t), CommentsOf(b, t), CommentsOf(c, t);
    hide CommentsOf;
    forall m | m in z[|x|..]
      ensures t in a.top ==> m.id > a.top[t]
    {
      var i :| |x| <= i < |z| && z[i] == m;
      if i < |y| {
        assert y[|x|..][i - |x|] == m;
      } else {
        assert z[|y|..][i - |y|] == m;
      }
    }
  }

  lemma ArriveGrown(h: Host, a: Arrival)
    requires HostOk(h) && (a.thread in h.top ==> a.comment.id > h.top[a.thread])
    ensures var b := Host(h.threads[a.thread := CommentsOf(h, a.thread) + [a.comment]],
                          h.top[a.thread := a.comment.id]);
            HostOk(b) && Grown(h, b)
  {
  }

  /** Growth and more handling keep every cursor covered. */
  lemma CursorsGrow(a: Host, b: Host, cursors: map<Thread, int>, handled: set<(Thread, int)>, more: set<(Thread, int)>)
    requires HostOk(a) && Grown(a, b) && CursorsOk(a, cursors, handled) && handled <= more
    ensures CursorsOk(b, cursors, more)
  {
    hide HostOk, CursorOk, GrownAt;
    forall t | t in cursors
      ensures CursorOk(b, t, cursors[t], more)
    {
      assert GrownAt(a, b, t);
      CursorGrows(a, b, t, cursors[t], handled, more);
    }
  }

  lemma CursorGrows(a: Host, b: Host, t: Thread, cursor: int, handled: set<(Thread, int)>, more: set<(Thread, int)>)
    requires HostOk(a) && GrownAt(a, b, t) && CursorOk(a, t, cursor, handled) && handled <= more
    ensures CursorOk(b, t, cursor, more)
  {
    var x, y := CommentsOf(a, t), CommentsOf(b, t);
    assert y == x + y[|x|..];
  }

  /** The cursor may advance past what was read and handled. */
  lemma Advanced(a: Host, t: Thread, cursor: int, handled: set<(Thread, int)>)
    requires HostOk(a) && CursorOk(a, t, cursor, handled)
    requires forall c :: c in After(CommentsOf(a, t), cursor) ==> (t, c.id) in handled
    ensures CursorOk(a, t, Newest(After(CommentsOf(a, t), cursor), cursor), handled)
    ensures cursor <= Newest(After(CommentsOf(a, t), cursor), cursor)
    ensures AllHandled(a, handled, t)
  {
    var comments := CommentsOf(a, t);
    NewestBounds(After(comments, cursor), cursor);
    forall c
      ensures c in After(comments, cursor) <==> c in comments && c.id > cursor
    {
      AfterHolds(comments, cursor, c);
    }
  }

  lemma StartCovered(h: Host, t: Thread, handled: set<(Thread, int)>)
    ensures CursorOk(h, t, 0, handled)
  {
  }

  lemma EarlierHandled(a: Host, b: Host, handled: set<(Thread, int)>, more: set<(Thread, int)>, t: Thread)
    requires Grown(a, b) && AllHandled(b, handled, t) && handled <= more
    ensures AllHandled(a, more, t)
  {
    assert GrownAt(a, b, t);
  }

  class Poller {
    var cursors: map<Thread, int>
    var host: Host
    // the environment's choices: comments to come, and which calls fail
    var arrivals: seq<seq<Arrival>>
    var faults: seq<bool>
    // every comment handled without error
    ghost var handled: set<(Thread, int)>

    ghost predicate Valid()
      reads this
    {
      HostOk(host) && CursorsOk(host, cursors, handled)
    }

    constructor ()
      ensures Valid() && cursors == map[] && handled == {}
    {
      cursors, host, arrivals, faults, handled := map[], Host(map[], map[]), [], [], {};
    }

    method Fails() returns (fault: bool)
      modifies this`faults
      ensures old(faults) == [] ==> !fault && faults == []
    {
      if faults == [] {
        return false;
      }
      fault := faults[0];
      faults := faults[1..];
    }

    /** Whatever arrives between two calls; an id its thread has passed cannot come again. */
    method Interleave()
      requires HostOk(host)
      modifies this`host, this`arrivals
      ensures HostOk(host) && Grown(old(host), host)
    {
      hide HostOk, Grown, CommentsOf;
      GrownRefl(host);
      if arrivals != [] {
        var batch := arrivals[0];
        arrivals := arrivals[1..];
        for k := 0 to |batch|
          invariant HostOk(host) && Grown(old(host), host)
        {
          var a := batch[k];
          if a.thread !in host.top || a.comment.id > host.top[a.thread] {
            ghost var before := host;
            ArriveGrown(host, a);
            host := Host(host.threads[a.thread := CommentsOf(host, a.thread) + [a.comment]],
                         host.top[a.thread := a.comment.id]);
            GrownTrans(old(host), before, host);
          }
        }
      }
    }

    /** Feed the messages in order; stop at the first fault. */
    method HandleAll(t: Thread, msgs: seq<Comment>) returns (all: bool)
      requires HostOk(host)
      modifies this`host, this`arrivals, this`faults, this`handled
      ensures HostOk(host) && Grown(old(host), host) && old(handled) <= handled
      ensures all ==> forall c :: c in msgs ==> (t, c.id) in handled
      ensures old(faults) == [] ==> all && faults == []
    {
      hide HostOk, Grown;
      GrownRefl(host);
      for k := 0 to |msgs|
        invariant HostOk(host) && Grown(old(host), host) && old(handled) <= handled
        invariant forall i :: 0 <= i < k ==> (t, msgs[i].id) in handled
        invariant old(faults) == [] ==> faults == []
      {
        ghost var before := host;
        Interleave();
        GrownTrans(old(host), before, host);
        var fault := Fails();
        if fault {
          return false;
        }
        handled := handled + {(t, msgs[k].id)};
      }
      return true;
    }

    /** One thread of a tick: read, handle, and only then advance the cursor. */
    method PollThread(t: Thread)
      requires Valid()
      modifies this
      ensures Valid() && Grown(old(host), host) && old(handled) <= handled
      ensures cursors == old(cursors) || (t in cursors && cursors == old(cursors)[t := cursors[t]]
                                          && CursorOf(old(cursors), t) <= cursors[t])
      ensures old(faults) == [] ==> faults == [] && AllHandled(old(host), handled, t)
    {
      hide HostOk, Grown, CursorOk, CursorsOk, AllHandled, CommentsOf, After, Newest;
      ghost var start, handled0 := host, handled;
      GrownRefl(start);
      var fault := Fails();
      if fault {
        return;
      }
      Interleave();
      ghost var atRead := host;
      CursorsGrow(start, atRead, cursors, handled0, handled0);
      var cursor := CursorOf(cursors, t);
      var msgs, next := Read(CommentsOf(host, t), cursor);
      var all := HandleAll(t, msgs);
      GrownTrans(start, atRead, host);
      CursorsGrow(atRead, host, cursors, handled0, handled);
      if all {
        OneCursor(atRead, cursors, t, handled0, handled);
        Advanced(atRead, t, cursor, handled);
        EarlierHandled(start, atRead, handled, handled, t);
        OneMoved(atRead, host, cursors, t, next, handled);
        cursors := cursors[t := next];
      }
    }

    /** One tick over the threads at the gate; None when they cannot be enumerated. */
    method Tick(refs: Option<seq<Thread>>) returns (ghost active: set<Thread>)
      requires Valid()
      modifies this
      ensures Valid() && Grown(old(host), host) && old(handled) <= handled
      ensures refs.None? ==> cursors == old(cursors)
      ensures refs.Some? ==> active <= (set t | t in refs.value) && cursors.Keys <= active
      ensures refs.Some? ==> forall t :: t in active && t in old(cursors) ==>
              t in cursors && old(cursors)[t] <= cursors[t]
      ensures refs.Some? && old(faults) == [] ==>
                active == (set t | t in refs.value) && forall t :: t in active ==> AllHandled(old(host), handled, t)
    {
      hide HostOk, Grown, CursorsOk, AllHandled;
      active := {};
      ghost var start := host;
      GrownRefl(start);
      if refs.None? {
        return;
      }
      var activeNow: set<Thread> := {};
      for k := 0 to |refs.value|
        invariant Valid() && Grown(start, host) && old(handled) <= handled
        invariant activeNow <= (set t | t in refs.value[..k])
        invariant forall t :: t in old(cursors) ==> t in cursors && old(cursors)[t] <= cursors[t]
        invariant old(faults) == [] ==> faults == [] && activeNow == (set t | t in refs.value[..k])
        invariant old(faults) == [] ==> forall t :: t in activeNow ==> AllHandled(start, handled, t)
      {
        var t := refs.value[k];
        assert refs.value[..k + 1] == refs.value[..k] + [t];
        var fault := Fails();
        if !fault {
          ghost var before, handled0, seen := host, handled, activeNow;
          activeNow := activeNow + {t};
          PollThread(t);
          HandledKept(start, before, seen, t, handled0, handled);
          GrownTrans(start, before, host);
        }
      }
      assert refs.value[..|refs.value|] == refs.value;
      active := activeNow;
      Pruned(host, cursors, activeNow, handled);
      cursors := map t | t in cursors && t in activeNow :: cursors[t];
    }
  }

  lemma OneCursor(h: Host, cursors: map<Thread, int>, t: Thread, handled: set<(Thread, int)>, more: set<(Thread, int)>)
    requires CursorsOk(h, cursors, handled) && handled <= more
    ensures CursorOk(h, t, CursorOf(cursors, t), more)
  {
    StartCovered(h, t, more);
  }

  lemma OneMoved(a: Host, b: Host, cursors: map<Thread, int>, t: Thread, next: int, handled: set<(Thread, int)>)
    requires HostOk(a) && Grown(a, b) && CursorsOk(b, cursors, handled) && CursorOk(a, t, next, handled)
    ensures CursorsOk(b, cursors[t := next], handled)
  {
    hide HostOk, CursorOk, GrownAt;
    assert GrownAt(a, b, t);
    CursorGrows(a, b, t, next, handled, handled);
  }

  lemma Pruned(h: Host, cursors: map<Thread, int>, active: set<Thread>, handled: set<(Thread, int)>)
    requires CursorsOk(h, cursors, handled)
    ensures CursorsOk(h, map t | t in cursors && t in active :: cursors[t], handled)
  {
    hide CursorOk;
  }

  lemma HandledKept(start: Host, before: Host, seen: set<Thread>, t: Thread, handled: set<(Thread, int)>,
                    more: set<(Thread, int)>)
    requires Grown(start, before) && handled <= more
    ensures (forall s :: s in seen ==> AllHandled(start, handled, s)) ==> forall s :: s in seen ==>
            AllHandled(start, more, s)
    ensures AllHandled(before, more, t) ==> AllHandled(start, more, t)
  {
    if AllHandled(before, more, t) {
      EarlierHandled(start, before, more, more, t);
    }
  }
}
