/**
  Ownership of backend threads (src/server/ownership.rs, src/projection/children.rs).

  A thread belongs to the ACP session of one of its ancestors. A walk up the parent links, which must be asked
  from the backend one by one, ends at the first thread that is a session or is known from an earlier walk,
  and leaves what it learned in a bounded cache that all walks share.
 */
module Ownership {
  import opened Prelude

  type ThreadId = string
  type Walker = nat
  type Handle = nat   // the identity of a session object

  const MAX_STEPS: nat := 32
  const MAX_CACHE: nat := 4096

  /** What thread/read answers: an RPC error, metadata of some other thread, another failure, or the parent. */
  datatype Metadata = Missing | Mismatched | Broken | Parent(parent: Option<ThreadId>)

  datatype Answer = Owned(root: ThreadId) | NotOwned | Cycle | TooDeep | CacheFull | Unreadable

  /** The part of the shared state that concerns ownership. */
  datatype Shared = Shared(sessions: map<ThreadId, Handle>, cache: map<ThreadId, ThreadId>)

  // ---------------------------------------------------------------- ancestry

  /** A path that follows parent links. */
  predicate Linked(parent: ThreadId -> Option<ThreadId>, path: seq<ThreadId>) {
    forall k | 0 <= k < |path| - 1 :: parent(path[k]) == Some(path[k + 1])
  }

  lemma LinkedOn(parent: ThreadId -> Option<ThreadId>, path: seq<ThreadId>, next: ThreadId)
    requires path != [] && Linked(parent, path) && parent(path[|path| - 1]) == Some(next)
    ensures Linked(parent, path + [next]) && (path + [next])[0] == path[0]
  {
    forall k | 0 <= k < |path + [next]| - 1 ensures parent((path + [next])[k]) == Some((path + [next])[k + 1]) {
      assert k < |path| - 1 ==> parent(path[k]) == Some(path[k + 1]);
    }
  }

  ghost predicate Path(parent: ThreadId -> Option<ThreadId>, from: ThreadId, to: ThreadId, path: seq<ThreadId>) {
    path != [] && path[0] == from && path[|path| - 1] == to && Linked(parent, path)
  }

  ghost predicate ProperAncestor(parent: ThreadId -> Option<ThreadId>, thread: ThreadId, ancestor: ThreadId) {
    exists path :: |path| >= 2 && Path(parent, thread, ancestor, path)
  }

  lemma ExtendAncestry(parent: ThreadId -> Option<ThreadId>, path: seq<ThreadId>, k: nat, root: ThreadId)
    requires Linked(parent, path) && k < |path|
    requires (k < |path| - 1 && path[|path| - 1] == root) || ProperAncestor(parent, path[|path| - 1], root)
    ensures ProperAncestor(parent, path[k], root)
  {
    if k < |path| - 1 && path[|path| - 1] == root {
      assert Path(parent, path[k], root, path[k..]);
    } else {
      var last := path[|path| - 1];
      var rest :| |rest| >= 2 && Path(parent, last, root, rest);
      assert Path(parent, path[k], root, path[k..] + rest[1..]);
    }
  }

  // ---------------------------------------------------------------- regions under the state lock

  /** Where a thread is found: it is a session itself, or the cache names a root that still is one. */
  function Hit(s: Shared, thread: ThreadId): (root: Option<ThreadId>)
    ensures root.Some? ==> root.value in s.sessions
  {
    if thread in s.sessions then Some(thread)
    else if thread in s.cache && s.cache[thread] in s.sessions then Some(s.cache[thread])
    else None
  }

  function Retained(s: Shared): map<ThreadId, ThreadId> {
    map c | c in s.cache && s.cache[c] in s.sessions :: s.cache[c]
  }

  function Added(cache: map<ThreadId, ThreadId>, visited: set<ThreadId>, root: ThreadId): map<ThreadId, ThreadId> {
    map c | c in cache.Keys + visited :: if c in visited then root else cache[c]
  }

  /** The end of a successful walk; the session must still be the one that was found. */
  function Remember(s: Shared, root: ThreadId, handle: Handle, visited: set<ThreadId>): (Shared, Answer) {
    if Get(s.sessions, root) != Some(handle) then (s, NotOwned)
    else if |Retained(s)| + |visited| > MAX_CACHE then (s.(cache := Retained(s)), CacheFull)
    else (s.(cache := Added(Retained(s), visited, root)), Owned(root))
  }

  lemma AddedNone(cache: map<ThreadId, ThreadId>, root: ThreadId)
    ensures Added(cache, {}, root) == cache
  {
  }

  lemma AddedOne(cache: map<ThreadId, ThreadId>, visited: set<ThreadId>, child: ThreadId, root: ThreadId)
    ensures Added(cache, visited + {child}, root) == Added(cache, visited, root)[child := root]
  {
  }

  class Registry {
    var sessions: map<ThreadId, Handle>
    var cache: map<ThreadId, ThreadId>
    var open: set<Handle>

    function Model(): Shared
      reads this
    {
      Shared(sessions, cache)
    }

    method Find(thread: ThreadId) returns (root: Option<ThreadId>)
      ensures root == Hit(Model(), thread)
    {
      if thread in sessions {
        return Some(thread);
      }
      if thread in cache && cache[thread] in sessions {
        return Some(cache[thread]);
      }
      return None;
    }

    method RememberRoot(root: ThreadId, handle: Handle, visited: set<ThreadId>) returns (answer: Answer)
      modifies this`cache
      ensures (Model(), answer) == Remember(old(Model()), root, handle, visited)
      ensures cache == if answer.Owned? then Added(Retained(old(Model())), visited, root)
                       else if answer.CacheFull? then Retained(old(Model()))
                       else old(cache)
      ensures answer == Owned(root) || answer.CacheFull? || answer.NotOwned?
    {
      if root !in sessions || sessions[root] != handle {
        return NotOwned;
      }
      cache := map c | c in cache && cache[c] in sessions :: cache[c];
      if |cache| + |visited| > MAX_CACHE {
        return CacheFull;
      }
      InsertAll(visited, root);
      return Owned(root);
    }

    method InsertAll(visited: set<ThreadId>, root: ThreadId)
      modifies this`cache
      ensures cache == Added(old(cache), visited, root)
    {
      hide Added;
      var todo := visited;
      ghost var done: set<ThreadId> := {};
      AddedNone(cache, root);
      while todo != {}
        invariant done + todo == visited
        invariant cache == Added(old(cache), done, root)
        decreases |todo|
      {
        var child :| child in todo;
        AddedOne(old(cache), done, child, root);
        cache := cache[child := root];
        todo, done := todo - {child}, done + {child};
      }
      assert done == visited;
    }

    /** A walk that nobody disturbs. */
    method OwnerForThread(thread: ThreadId, read: ThreadId -> Metadata) returns (answer: Answer)
      modifies this`cache
      ensures answer == Walk(old(Model()), old(open), read, thread, [])
      ensures answer.Owned? ==>
                exists path :: && |path| <= MAX_STEPS && FirstHit(old(Model()), read, thread, path)
                               && Hit(old(Model()), Last(path)) == Some(answer.root)
                               && cache == Added(Retained(old(Model())), Passed(path), answer.root)
      ensures !answer.Owned? ==> cache == if answer.CacheFull? then Retained(old(Model())) else old(cache)
    {
      hide Linked, FirstHit, Hit, Remember, Retained, Added;
      LinkedAlone(ParentBy(read), thread);
      var current := thread;
      var visited: set<ThreadId> := {};
      ghost var trail: seq<ThreadId> := [];
      for step := 0 to MAX_STEPS
        invariant |trail| == step && visited == Elements(trail)
        invariant Model() == old(Model()) && open == old(open)
        invariant Walk(Model(), open, read, thread, []) == Walk(Model(), open, read, current, trail)
        invariant (trail + [current])[0] == thread && Linked(ParentBy(read), trail + [current])
        invariant forall t <- trail :: Hit(Model(), t).None?
      {
        var root := Find(current);
        if root.Some? {
          if sessions[root.value] !in open {
            return NotOwned;
          }
          ghost var path := trail + [current];
          assert Passed(path) == visited;
          FirstHitFrom(Model(), read, trail, current);
          answer := RememberRoot(root.value, sessions[root.value], visited);
          return;
        }
        if current in visited {
          return Cycle;
        }
        visited := visited + {current};
        trail := trail + [current];
        match read(current) {
          case Missing => return NotOwned;
          case Mismatched => return Unreadable;
          case Broken => return Unreadable;
          case Parent(parent) =>
            if parent.None? {
              return NotOwned;
            }
            LinkedOn(ParentBy(read), trail, parent.value);
            assert (trail + [parent.value])[0] == thread;
            current := parent.value;
        }
      }
      return TooDeep;
    }
  }

  function Elements(s: seq<ThreadId>): set<ThreadId> { set x | x in s }

  // ---------------------------------------------------------------- a whole walk

  /** The answer to `current` after the threads of `trail` have been passed. */
  function Walk(s: Shared, open: set<Handle>, read: ThreadId -> Metadata, current: ThreadId, trail: seq<ThreadId>): Answer
    decreases MAX_STEPS - |trail|
  {
    if |trail| >= MAX_STEPS then TooDeep
    else
      var root := Hit(s, current);
      if root.Some? then
        if s.sessions[root.value] !in open then NotOwned
        else Remember(s, root.value, s.sessions[root.value], Elements(trail)).1
      else if current in trail then Cycle
      else
        match read(current)
        case Missing => NotOwned
        case Mismatched => Unreadable
        case Broken => Unreadable
        case Parent(parent) =>
          if parent.None? then NotOwned else Walk(s, open, read, parent.value, trail + [current])
  }

  function ParentBy(read: ThreadId -> Metadata): ThreadId -> Option<ThreadId> {
    (t: ThreadId) => if read(t).Parent? then read(t).parent else None
  }

  /** The shortest way up to a thread that is found: only its last thread is. */
  ghost predicate FirstHit(s: Shared, read: ThreadId -> Metadata, thread: ThreadId, path: seq<ThreadId>) {
    && path != [] && path[0] == thread && Linked(ParentBy(read), path)
    && (forall k | 0 <= k < |path| - 1 :: Hit(s, path[k]).None?)
    && Hit(s, path[|path| - 1]).Some?
  }

  lemma FirstHitFrom(s: Shared, read: ThreadId -> Metadata, trail: seq<ThreadId>, current: ThreadId)
    requires Linked(ParentBy(read), trail + [current]) && (forall t <- trail :: Hit(s, t).None?) && Hit(s, current).Some?
    ensures FirstHit(s, read, (trail + [current])[0], trail + [current])
  {
  }

  lemma LinkedAlone(parent: ThreadId -> Option<ThreadId>, thread: ThreadId)
    ensures Linked(parent, [] + [thread])
  {
  }

  /** Links are functional, so a way up that only ends at a hit visits no thread twice. */
  lemma {:induction false} FirstHitDistinct(s: Shared, read: ThreadId -> Metadata, thread: ThreadId, path: seq<ThreadId>, i: nat, j: nat)
    requires FirstHit(s, read, thread, path) && i < j < |path|
    ensures path[i] != path[j]
    decreases |path| - j
  {
    if path[i] == path[j] {
      if j < |path| - 1 {
        FirstHitDistinct(s, read, thread, path, i + 1, j + 1);
      }
    }
  }

  lemma DistinctElements(path: seq<ThreadId>)
    requires forall i, j | 0 <= i < j < |path| :: path[i] != path[j]
    ensures |Elements(path)| == |path|
  {
    if path != [] {
      var last := |path| - 1;
      DistinctElements(path[..last]);
      assert Elements(path) == Elements(path[..last]) + {path[last]};
    }
  }

  function Landed(s: Shared, open: set<Handle>, path: seq<ThreadId>): Answer
    requires path != [] && Hit(s, path[|path| - 1]).Some?
  {
    var root := Hit(s, path[|path| - 1]).value;
    if s.sessions[root] !in open then NotOwned
    else if |Retained(s)| + |path| - 1 > MAX_CACHE then CacheFull
    else Owned(root)
  }

  lemma {:induction false} WalkAlong(s: Shared, open: set<Handle>, read: ThreadId -> Metadata, path: seq<ThreadId>, k: nat)
    requires path != [] && FirstHit(s, read, path[0], path) && k < |path| <= MAX_STEPS
    ensures Walk(s, open, read, path[k], path[..k]) == Landed(s, open, path)
    decreases |path| - k
  {
    if k == |path| - 1 {
      forall i, j | 0 <= i < j < k ensures path[..k][i] != path[..k][j] {
        FirstHitDistinct(s, read, path[0], path, i, j);
      }
      DistinctElements(path[..k]);
    } else {
      forall i | 0 <= i < k ensures path[i] != path[k] {
        FirstHitDistinct(s, read, path[0], path, i, k);
      }
      assert ParentBy(read)(path[k]) == Some(path[k + 1]);
      WalkAlong(s, open, read, path, k + 1);
      assert path[..k] + [path[k]] == path[..k + 1];
    }
  }

  lemma {:induction false} WalkHasPath(s: Shared, open: set<Handle>, read: ThreadId -> Metadata, current: ThreadId, trail: seq<ThreadId>)
      returns (path: seq<ThreadId>)
    requires Walk(s, open, read, current, trail).Owned?
    requires Linked(ParentBy(read), trail + [current]) && forall t <- trail :: Hit(s, t).None?
    ensures |path| <= MAX_STEPS && FirstHit(s, read, (trail + [current])[0], path)
    decreases MAX_STEPS - |trail|
  {
    path := trail + [current];
    if Hit(s, current).None? {
      var next := read(current).parent.value;
      assert ParentBy(read)(current) == Some(next);
      LinkedOn(ParentBy(read), path, next);
      path := WalkHasPath(s, open, read, next, path);
    }
  }

  /**
    An undisturbed walk names `root` exactly if some way up of at most 32 threads meets its first session, or
    cached descendant of one, at `root`, that session is open, and the cache has room for the way beside its entries
    of registered sessions.
   */
  lemma WalkExactly(s: Shared, open: set<Handle>, read: ThreadId -> Metadata, thread: ThreadId, root: ThreadId)
    ensures Walk(s, open, read, thread, []) == Owned(root)
            <==> exists path :: && |path| <= 32 && FirstHit(s, read, thread, path)
                                && Hit(s, path[|path| - 1]) == Some(root) && s.sessions[root] in open
                                && |Retained(s)| + |path| - 1 <= 4096
  {
    if Walk(s, open, read, thread, []).Owned? {
      var path := WalkHasPath(s, open, read, thread, []);
      WalkAlong(s, open, read, path, 0);
    }
    forall path | |path| <= MAX_STEPS && FirstHit(s, read, thread, path)
      ensures Walk(s, open, read, thread, []) == Landed(s, open, path)
    {
      WalkAlong(s, open, read, path, 0);
      assert path[..0] == [];
    }
  }

  /** A way up without a hit or a repetition, which a walk follows to its end. */
  ghost predicate Unsuccessful(s: Shared, read: ThreadId -> Metadata, path: seq<ThreadId>) {
    && path != [] && Linked(ParentBy(read), path) && (forall t <- path :: Hit(s, t).None?)
    && forall i, j | 0 <= i < j < |path| :: path[i] != path[j]
  }

  lemma {:induction false} WalkFollows(s: Shared, open: set<Handle>, read: ThreadId -> Metadata, path: seq<ThreadId>, k: nat)
    requires Unsuccessful(s, read, path) && k < |path| <= 32
    ensures Walk(s, open, read, path[0], []) == Walk(s, open, read, path[k], path[..k])
  {
    if k == 0 {
      assert path[..0] == [];
    } else {
      WalkFollows(s, open, read, path, k - 1);
      assert ParentBy(read)(path[k - 1]) == Some(path[k]);
      assert path[..k - 1] + [path[k - 1]] == path[..k];
      assert path[k - 1] in path && path[k - 1] !in path[..k - 1];
    }
  }

  /**
    How an undisturbed walk ends that finds nothing: at a thread that is gone or has no parent nobody owns the thread;
    metadata that cannot be read say so; a parent met before is a cycle; and so is the limit of 32 threads reported.
   */
  lemma WalkEndsExactly(s: Shared, open: set<Handle>, read: ThreadId -> Metadata, path: seq<ThreadId>)
    requires Unsuccessful(s, read, path) && |path| <= 32
    ensures var answer, metadata := Walk(s, open, read, path[0], []), read(path[|path| - 1]);
            match metadata
            case Missing => answer == NotOwned
            case Mismatched => answer == Unreadable
            case Broken => answer == Unreadable
            case Parent(None) => answer == NotOwned
            case Parent(Some(next)) =>
              && (|path| == 32 ==> answer == TooDeep)
              && (|path| < 32 && next in path ==> answer == Cycle)
  {
    var last := |path| - 1;
    WalkFollows(s, open, read, path, last);
    assert path[..last] + [path[last]] == path;
    assert path[last] in path && path[last] !in path[..last];
  }

  // ---------------------------------------------------------------- concurrent walks

  /** `path` ends with the thread in question; all before it have been passed. */
  datatype Progress =
    | Looking(path: seq<ThreadId>)
    | Asking(path: seq<ThreadId>)
    | Found(path: seq<ThreadId>, root: ThreadId, handle: Handle)
    | Checked(path: seq<ThreadId>, root: ThreadId, handle: Handle)
    | Finished(path: seq<ThreadId>, answer: Answer)

  datatype World = World(shared: Shared, open: set<Handle>, walks: map<Walker, Progress>)

  datatype Step =
    | Begin(w: Walker, thread: ThreadId)
    | Look(w: Walker)
    | Ask(w: Walker, metadata: Metadata)
    | CheckOpen(w: Walker)
    | Keep(w: Walker)
    | Register(id: ThreadId, handle: Handle)
    | Unregister(id: ThreadId)
    | SetOpen(handle: Handle, isOpen: bool)

  /** The backend may refuse, but what it says about parents is true and never changes. */
  predicate Enabled(world: World, step: Step, parent: ThreadId -> Option<ThreadId>) {
    match step
    case Begin(w, _) => w !in world.walks
    case Look(w) => w in world.walks && world.walks[w].Looking? && world.walks[w].path != []
    case Ask(w, metadata) =>
      && w in world.walks && world.walks[w].Asking? && world.walks[w].path != []
      && (metadata.Parent? ==> metadata.parent == parent(Last(world.walks[w].path)))
    case CheckOpen(w) => w in world.walks && world.walks[w].Found?
    case Keep(w) => w in world.walks && world.walks[w].Checked? && world.walks[w].path != []
    case Register(_, _) => true
    case Unregister(_) => true
    case SetOpen(_, _) => true
  }

  function Last(path: seq<ThreadId>): ThreadId
    requires path != []
  {
    path[|path| - 1]
  }

  function Passed(path: seq<ThreadId>): set<ThreadId>
    requires path != []
  {
    Elements(path[..|path| - 1])
  }

  function Looked(s: Shared, path: seq<ThreadId>): Progress
    requires path != []
  {
    var root := Hit(s, Last(path));
    if root.Some? then Found(path, root.value, s.sessions[root.value])
    else if Last(path) in Passed(path) then Finished(path, Cycle)
    else Asking(path)
  }

  function Told(path: seq<ThreadId>, metadata: Metadata): Progress {
    match metadata
    case Missing => Finished(path, NotOwned)
    case Mismatched => Finished(path, Unreadable)
    case Broken => Finished(path, Unreadable)
    case Parent(parent) =>
      if parent.None? then Finished(path, NotOwned)
      else if |path| >= MAX_STEPS then Finished(path, TooDeep)
      else Looking(path + [parent.value])
  }

  function Apply(world: World, step: Step, parent: ThreadId -> Option<ThreadId>): World
    requires Enabled(world, step, parent)
  {
    match step
    case Begin(w, thread) => world.(walks := world.walks[w := Looking([thread])])
    case Look(w) => world.(walks := world.walks[w := Looked(world.shared, world.walks[w].path)])
    case Ask(w, metadata) => world.(walks := world.walks[w := Told(world.walks[w].path, metadata)])
    case CheckOpen(w) =>
      var walk := world.walks[w];
      world.(walks := world.walks[w := if walk.handle in world.open then Checked(walk.path, walk.root, walk.handle)
                                       else Finished(walk.path, NotOwned)])
    case Keep(w) =>
      var walk := world.walks[w];
      var (shared, answer) := Remember(world.shared, walk.root, walk.handle, Passed(walk.path));
      world.(shared := shared, walks := world.walks[w := Finished(walk.path, answer)])
    case Register(id, handle) => world.(shared := world.shared.(sessions := world.shared.sessions[id := handle]))
    case Unregister(id) => world.(shared := world.shared.(sessions := world.shared.sessions - {id}))
    case SetOpen(handle, isOpen) => world.(open := if isOpen then world.open + {handle} else world.open - {handle})
  }

  ghost predicate Legal(world: World, steps: seq<Step>, parent: ThreadId -> Option<ThreadId>)
    decreases |steps|
  {
    steps == [] || (Enabled(world, steps[0], parent) && Legal(Apply(world, steps[0], parent), steps[1..], parent))
  }

  ghost function Execute(world: World, steps: seq<Step>, parent: ThreadId -> Option<ThreadId>): World
    requires Legal(world, steps, parent)
    decreases |steps|
  {
    if steps == [] then world else Execute(Apply(world, steps[0], parent), steps[1..], parent)
  }

  const Initial: World := World(Shared(map[], map[]), {}, map[])

  ghost predicate CacheSound(cache: map<ThreadId, ThreadId>, parent: ThreadId -> Option<ThreadId>) {
    |cache| <= MAX_CACHE && forall c <- cache :: ProperAncestor(parent, c, cache[c])
  }

  ghost predicate Owns(parent: ThreadId -> Option<ThreadId>, thread: ThreadId, root: ThreadId) {
    thread == root || ProperAncestor(parent, thread, root)
  }

  ghost predicate WalkFine(walk: Progress, parent: ThreadId -> Option<ThreadId>) {
    && 1 <= |walk.path| <= MAX_STEPS && Linked(parent, walk.path)
    && (walk.Found? || walk.Checked? ==> Owns(parent, Last(walk.path), walk.root))
    && (walk.Finished? ==>
          && (walk.answer.Owned? ==> Owns(parent, walk.path[0], walk.answer.root))
          && (walk.answer.Cycle? ==> ProperAncestor(parent, Last(walk.path), Last(walk.path)))
          && (walk.answer.TooDeep? ==> |walk.path| == MAX_STEPS && parent(Last(walk.path)).Some?))
  }

  ghost predicate Inv(world: World, parent: ThreadId -> Option<ThreadId>) {
    CacheSound(world.shared.cache, parent) && forall w <- world.walks :: WalkFine(world.walks[w], parent)
  }

  lemma LookKeeps(s: Shared, path: seq<ThreadId>, parent: ThreadId -> Option<ThreadId>)
    requires CacheSound(s.cache, parent) && WalkFine(Looking(path), parent)
    ensures WalkFine(Looked(s, path), parent)
  {
    if Hit(s, Last(path)).None? && Last(path) in Passed(path) {
      var k :| 0 <= k < |path| - 1 && path[k] == Last(path);
      ExtendAncestry(parent, path, k, Last(path));
    }
  }

  lemma OwnsFrom(path: seq<ThreadId>, k: nat, root: ThreadId, parent: ThreadId -> Option<ThreadId>)
    requires Linked(parent, path) && k < |path| && Owns(parent, Last(path), root)
    ensures if k < |path| - 1 then ProperAncestor(parent, path[k], root) else Owns(parent, path[k], root)
  {
    if k < |path| - 1 {
      ExtendAncestry(parent, path, k, root);
    }
  }

  lemma KeepKeeps(s: Shared, path: seq<ThreadId>, root: ThreadId, handle: Handle, parent: ThreadId -> Option<ThreadId>)
    requires CacheSound(s.cache, parent) && WalkFine(Checked(path, root, handle), parent)
    ensures var (shared, answer) := Remember(s, root, handle, Passed(path));
            CacheSound(shared.cache, parent) && WalkFine(Finished(path, answer), parent)
  {
    hide Added, Retained, Passed, Linked, ProperAncestor, CacheSound;
    OwnsFrom(path, 0, root, parent);
    assert Owns(parent, path[0], root);
    KeptSound(s, parent);
    if |Retained(s)| + |Passed(path)| <= MAX_CACHE {
      AddedSound(Retained(s), path, root, parent);
    }
  }

  lemma KeptSound(s: Shared, parent: ThreadId -> Option<ThreadId>)
    requires CacheSound(s.cache, parent)
    ensures CacheSound(Retained(s), parent)
  {
    CountSubset(Retained(s).Keys, s.cache.Keys);
    assert |Retained(s)| == |Retained(s).Keys| && |s.cache| == |s.cache.Keys|;
  }

  lemma AddedSound(cache: map<ThreadId, ThreadId>, path: seq<ThreadId>, root: ThreadId, parent: ThreadId -> Option<ThreadId>)
    requires path != [] && Linked(parent, path) && Owns(parent, Last(path), root)
    requires CacheSound(cache, parent) && |cache| + |Passed(path)| <= MAX_CACHE
    ensures CacheSound(Added(cache, Passed(path), root), parent)
  {
    forall c | c in Passed(path) ensures ProperAncestor(parent, c, root) {
      var k :| 0 <= k < |path| - 1 && path[k] == c;
      OwnsFrom(path, k, root, parent);
    }
    hide ProperAncestor, Linked;
    CountAdded(cache, Passed(path), root);
  }

  lemma CountAdded(cache: map<ThreadId, ThreadId>, visited: set<ThreadId>, root: ThreadId)
    ensures |Added(cache, visited, root)| <= |cache| + |visited|
  {
    var added := Added(cache, visited, root);
    assert added.Keys == cache.Keys + visited;
    assert |added.Keys| <= |cache.Keys| + |visited|;
    assert |added| == |added.Keys| && |cache| == |cache.Keys|;
  }

  lemma CountSubset(a: set<ThreadId>, b: set<ThreadId>)
    requires a <= b
    ensures |a| <= |b|
  {
    assert b == a + (b - a);
  }

  lemma StepKeeps(world: World, step: Step, parent: ThreadId -> Option<ThreadId>)
    requires Inv(world, parent) && Enabled(world, step, parent)
    ensures Inv(Apply(world, step, parent), parent)
  {
    hide Looked, Remember, ProperAncestor, CacheSound;
    match step
    case Look(w) => LookKeeps(world.shared, world.walks[w].path, parent);
    case Keep(w) =>
      var walk := world.walks[w];
      KeepKeeps(world.shared, walk.path, walk.root, walk.handle, parent);
    case Begin(_, _) =>
    case Ask(_, _) =>
    case CheckOpen(_) =>
    case Register(_, _) =>
    case Unregister(_) =>
    case SetOpen(_, _) =>
  }

  lemma {:induction false} RunKeeps(world: World, steps: seq<Step>, parent: ThreadId -> Option<ThreadId>)
    requires Inv(world, parent) && Legal(world, steps, parent)
    ensures Inv(Execute(world, steps, parent), parent)
    decreases |steps|
  {
    hide Inv, Apply, Enabled;
    if steps != [] {
      StepKeeps(world, steps[0], parent);
      RunKeeps(Apply(world, steps[0], parent), steps[1..], parent);
    }
  }

  /**
    Soundness, however walks and changes of the sessions interleave and whatever the shape of the parent
    links: the cache holds at most 4096 pairs of a thread and a proper ancestor of it, a walk answers with
    the thread itself or a proper ancestor, a reported cycle exists, and no walk passes more than 32 threads.
   */
  lemma OwnershipSound(steps: seq<Step>, parent: ThreadId -> Option<ThreadId>)
    requires Legal(Initial, steps, parent)
    ensures Inv(Execute(Initial, steps, parent), parent)
  {
    RunKeeps(Initial, steps, parent);
  }

  /** The session a walk names is registered at that moment, and is the object that the walk found open. */
  lemma AnswerIsSession(world: World, w: Walker, parent: ThreadId -> Option<ThreadId>)
    requires Enabled(world, Keep(w), parent)
    ensures var walk := world.walks[w];
            var world' := Apply(world, Keep(w), parent);
            && (world'.walks[w].answer.Owned? ==>
                  && world'.walks[w].answer == Owned(walk.root)
                  && Get(world'.shared.sessions, walk.root) == Some(walk.handle)
                  && (forall c <- world'.shared.cache :: world'.shared.cache[c] in world'.shared.sessions)
                  && (forall t <- Passed(walk.path) :: Get(world'.shared.cache, t) == Some(walk.root)))
            && (world'.walks[w].answer.NotOwned? <==> Get(world.shared.sessions, walk.root) != Some(walk.handle))
  {
  }

  // ---------------------------------------------------------------- one walk among the others

  /** What the backend is told to answer agrees with the parents. */
  ghost predicate Truthful(read: ThreadId -> Metadata, parent: ThreadId -> Option<ThreadId>) {
    forall t :: read(t).Parent? ==> read(t).parent == parent(t)
  }

  predicate Steps(step: Step, w: Walker) { (step.Look? || step.Ask? || step.CheckOpen? || step.Keep?) && step.w == w }

  /** What the walk leaves in the shared state. */
  function Left(s: Shared, open: set<Handle>, read: ThreadId -> Metadata, current: ThreadId, trail: seq<ThreadId>): Shared
    decreases MAX_STEPS - |trail|
  {
    if |trail| >= MAX_STEPS then s
    else
      var root := Hit(s, current);
      if root.Some? then
        if s.sessions[root.value] !in open then s
        else Remember(s, root.value, s.sessions[root.value], Elements(trail)).0
      else if current in trail || !read(current).Parent? || read(current).parent.None? then s
      else Left(s, open, read, read(current).parent.value, trail + [current])
  }

  /**
    The steps of a walk, taken without any other in between, are the walk: they are legal, and end with its answer and
    with what it remembers.
   */
  lemma {:induction false} SoloWalk(world: World, w: Walker, read: ThreadId -> Metadata, parent: ThreadId -> Option<ThreadId>,
                                    trail: seq<ThreadId>, current: ThreadId)
      returns (steps: seq<Step>)
    requires Truthful(read, parent) && w in world.walks && world.walks[w] == Looking(trail + [current]) && |trail| < 32
    ensures Legal(world, steps, parent) && forall s <- steps :: Steps(s, w)
    ensures var after := Execute(world, steps, parent);
            && w in after.walks && after.walks[w].Finished?
            && after.walks[w].answer == Walk(world.shared, world.open, read, current, trail)
            && after.shared == Left(world.shared, world.open, read, current, trail)
            && after.open == world.open && after.walks == world.walks[w := after.walks[w]]
    decreases 32 - |trail|
  {
    hide Hit, Remember;
    var path := trail + [current];
    assert path[..|path| - 1] == trail;
    var looked := Apply(world, Look(w), parent);
    var rest: seq<Step>;
    if Hit(world.shared, current).Some? {
      rest := KeepSteps(looked, w, parent);
    } else if current in trail {
      rest := [];
    } else {
      var told := Apply(looked, Ask(w, read(current)), parent);
      var more: seq<Step> := [];
      if read(current).Parent? && read(current).parent.Some? && |path| < 32 {
        more := SoloWalk(told, w, read, parent, path, read(current).parent.value);
      }
      rest := Before(looked, Ask(w, read(current)), more, parent);
    }
    steps := Before(world, Look(w), rest, parent);
  }

  /** A run with one more step in front. */
  lemma Before(world: World, step: Step, rest: seq<Step>, parent: ThreadId -> Option<ThreadId>) returns (steps: seq<Step>)
    requires Enabled(world, step, parent) && Legal(Apply(world, step, parent), rest, parent)
    ensures steps == [step] + rest && Legal(world, steps, parent)
    ensures Execute(world, steps, parent) == Execute(Apply(world, step, parent), rest, parent)
  {
    hide Apply, Enabled;
    steps := [step] + rest;
    assert steps[1..] == rest;
  }

  /** From a found session to the answer. */
  lemma KeepSteps(world: World, w: Walker, parent: ThreadId -> Option<ThreadId>) returns (steps: seq<Step>)
    requires w in world.walks && world.walks[w].Found? && world.walks[w].path != []
    ensures Legal(world, steps, parent) && forall s <- steps :: Steps(s, w)
    ensures var walk, after := world.walks[w], Execute(world, steps, parent);
            && w in after.walks && after.open == world.open && after.walks == world.walks[w := after.walks[w]]
            && if walk.handle in world.open then
                 (after.shared, after.walks[w])
                 == (Remember(world.shared, walk.root, walk.handle, Passed(walk.path)).0,
                     Finished(walk.path, Remember(world.shared, walk.root, walk.handle, Passed(walk.path)).1))
               else after.shared == world.shared && after.walks[w] == Finished(walk.path, NotOwned)
  {
    hide Remember;
    if world.walks[w].handle in world.open {
      var checked := Apply(world, CheckOpen(w), parent);
      steps := Before(checked, Keep(w), [], parent);
      steps := Before(world, CheckOpen(w), steps, parent);
    } else {
      steps := Before(world, CheckOpen(w), [], parent);
    }
  }

  /** In every state of the run the session is registered, and no walk that has passed the thread is kept. */
  ghost predicate Undisturbed(world: World, steps: seq<Step>, parent: ThreadId -> Option<ThreadId>, thread: ThreadId, root: ThreadId)
    requires Legal(world, steps, parent)
    decreases |steps|
  {
    && root in world.shared.sessions
    && (steps == []
        || (&& (steps[0].Keep? ==> thread !in Passed(world.walks[steps[0].w].path))
            && Undisturbed(Apply(world, steps[0], parent), steps[1..], parent, thread, root)))
  }

  lemma RememberedStep(world: World, step: Step, parent: ThreadId -> Option<ThreadId>, thread: ThreadId, root: ThreadId)
    requires Enabled(world, step, parent) && root in world.shared.sessions && Get(world.shared.cache, thread) == Some(root)
    requires step.Keep? ==> thread !in Passed(world.walks[step.w].path)
    ensures Get(Apply(world, step, parent).shared.cache, thread) == Some(root)
  {
    hide Passed, Looked, Told;
  }

  lemma {:induction false} RememberedRuns(world: World, steps: seq<Step>, parent: ThreadId -> Option<ThreadId>, thread: ThreadId, root: ThreadId)
    requires Legal(world, steps, parent) && Undisturbed(world, steps, parent, thread, root)
    requires Get(world.shared.cache, thread) == Some(root)
    ensures var after := Execute(world, steps, parent);
            root in after.shared.sessions && Get(after.shared.cache, thread) == Some(root)
    decreases |steps|
  {
    hide Apply, Enabled;
    if steps != [] {
      RememberedStep(world, steps[0], parent, thread, root);
      RememberedRuns(Apply(world, steps[0], parent), steps[1..], parent, thread, root);
    }
  }

  /**
    What a walk has found is found again at the first look: while the session stays registered, and no other walk
    that has passed the thread is kept, a new walk that begins at any thread of the way finds it without asking the
    backend, unless that thread has become a session itself.
   */
  lemma FoundAgain(world: World, w: Walker, later: seq<Step>, parent: ThreadId -> Option<ThreadId>, thread: ThreadId, next: Walker)
    requires Enabled(world, Keep(w), parent) && Apply(world, Keep(w), parent).walks[w].answer == Owned(world.walks[w].root)
    requires thread in Passed(world.walks[w].path)
    requires var kept := Apply(world, Keep(w), parent);
             Legal(kept, later, parent) && Undisturbed(kept, later, parent, thread, world.walks[w].root)
    requires next !in Execute(Apply(world, Keep(w), parent), later, parent).walks
    ensures var end := Execute(Apply(world, Keep(w), parent), later, parent);
            var root := if thread in end.shared.sessions then thread else world.walks[w].root;
            && root in end.shared.sessions
            && var begun := Apply(end, Begin(next, thread), parent);
               Apply(begun, Look(next), parent).walks[next] == Found([thread], root, end.shared.sessions[root])
  {
    AnswerIsSession(world, w, parent);
    RememberedRuns(Apply(world, Keep(w), parent), later, parent, thread, world.walks[w].root);
  }

  /** The cache is full, for a walk, exactly if its way does not fit beside the 4096 entries of registered sessions. */
  lemma CacheFullExactly(world: World, w: Walker, parent: ThreadId -> Option<ThreadId>)
    requires Enabled(world, Keep(w), parent)
    ensures var walk := world.walks[w];
            var kept := map t | t in world.shared.cache && world.shared.cache[t] in world.shared.sessions :: world.shared.cache[t];
            var after := Apply(world, Keep(w), parent);
            && (after.walks[w].answer == CacheFull
                <==> Get(world.shared.sessions, walk.root) == Some(walk.handle) && |kept| + |Passed(walk.path)| > 4096)
            && (after.walks[w].answer == CacheFull ==> after.shared.cache == kept)
            && after.shared.sessions == world.shared.sessions
  {
    assert Retained(world.shared) == map t | t in world.shared.cache && world.shared.cache[t] in world.shared.sessions :: world.shared.cache[t];
  }

  // ---------------------------------------------------------------- identities of projected child items

  const CHILD_PREFIX: string := "codex-child:"

  function ChildItemId(thread: ThreadId, item: string): string { CHILD_PREFIX + thread + ":" + item }

  lemma ChildItemIdTail(thread: ThreadId, item: string)
    ensures ChildItemId(thread, item)[|CHILD_PREFIX|..] == thread + ":" + item
  {
  }

  /** Within one thread the identity determines the item. */
  lemma ChildItemsDistinct(thread: ThreadId, one: string, two: string)
    requires ChildItemId(thread, one) == ChildItemId(thread, two)
    ensures one == two
  {
    assert ChildItemId(thread, one)[|CHILD_PREFIX| + |thread| + 1..] == one;
    assert ChildItemId(thread, two)[|CHILD_PREFIX| + |thread| + 1..] == two;
  }

  /** Items of two threads can collide exactly if one thread id, with a colon, begins the other. */
  lemma ChildItemsCollideExactly(one: ThreadId, two: ThreadId)
    ensures (exists a, b :: ChildItemId(one, a) == ChildItemId(two, b))
            <==> one == two || one + ":" <= two || two + ":" <= one
  {
    if one == two {
      assert ChildItemId(one, "") == ChildItemId(two, "");
    } else if one + ":" <= two {
      assert two == one + ":" + two[|one| + 1..];
      assert ChildItemId(one, two[|one| + 1..] + ":") == ChildItemId(two, "");
    } else if two + ":" <= one {
      assert one == two + ":" + one[|two| + 1..];
      assert ChildItemId(one, "") == ChildItemId(two, one[|two| + 1..] + ":");
    }
    forall a, b | ChildItemId(one, a) == ChildItemId(two, b)
      ensures one == two || one + ":" <= two || two + ":" <= one
    {
      ChildItemIdTail(one, a);
      ChildItemIdTail(two, b);
      var tail := one + ":" + a;
      assert tail == two + ":" + b;
      assert tail[..|one| + 1] == one + ":" && tail[..|two| + 1] == two + ":";
      if |one| < |two| {
        assert two == tail[..|two|];
        assert two[..|one| + 1] == tail[..|one| + 1];
      } else if |two| < |one| {
        assert one == tail[..|one|];
        assert one[..|two| + 1] == tail[..|two| + 1];
      } else {
        assert one == tail[..|one|] && two == tail[..|two|];
      }
    }
  }
}
