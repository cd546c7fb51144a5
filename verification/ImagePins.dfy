/**
 Pins on the images of session containers (backend/src/imagePins.ts, and the pin, verify and record part
 of spawnWithConfig in backend/src/dockerManager.ts).

 A pin of an image is a tag named after its id. While this process works, others move tags that are not
 pins (a rebuild) and pin images to themselves. A tag that moves may take its old image with it, if that
 was the image's last tag, whether or not a container uses the image.
 */
module ImagePins {
  import opened Wrappers
  import L = LifecycleLock

  type SessionId = L.SessionId

  /** sha256:<64 hex digits>. */
  datatype ImageId = ImageId(hex: string)

  /** A tag: the pin of an image (pinRef), or any other name. */
  datatype Tag = Pin(of: ImageId) | Name(name: string)

  /** What `inspectImage` resolves: a tag or an id. */
  datatype Ref = ByTag(tag: Tag) | ById(id: ImageId)

  datatype Store = Store(tags: map<Tag, ImageId>, images: set<ImageId>)

  ghost predicate WellFormed(s: Store) {
    forall t :: t in s.tags ==> s.tags[t] in s.images
  }

  function Inspect(s: Store, ref: Ref): Option<ImageId> {
    match ref
    case ByTag(t) => if t in s.tags then Some(s.tags[t]) else None
    case ById(i) => if i in s.images then Some(i) else None
  }

  /** The tag is the only one of its image. */
  predicate LastTag(s: Store, t: Tag) {
    t in s.tags && forall u :: u in s.tags && s.tags[u] == s.tags[t] ==> u == t
  }

  /** `purge` says whether an image that loses its last tag goes at once. */
  function SetTag(s: Store, t: Tag, i: ImageId, purge: bool): Store {
    Store(s.tags[t := i], if purge && LastTag(s, t) && s.tags[t] != i then s.images - {s.tags[t]} else s.images)
  }

  function Untag(s: Store, t: Tag, purge: bool): Store {
    Store(s.tags - {t}, if purge && LastTag(s, t) then s.images - {s.tags[t]} else s.images)
  }

  /** The pin of the image names that image. */
  predicate Good(s: Store, i: ImageId) {
    Inspect(s, ByTag(Pin(i))) == Some(i)
  }

  // ----- Everybody else

  datatype Step =
    | Rebuilding(name: string, image: ImageId, purge: bool)
    | Removing(name: string, purge: bool)
    | Pinning(image: ImageId, purge: bool)

  function Take(s: Store, e: Step): Store {
    match e
    case Rebuilding(name, i, purge) => SetTag(s.(images := s.images + {i}), Name(name), i, purge)
    case Removing(name, purge) => Untag(s, Name(name), purge)
    case Pinning(i, purge) => if i in s.images then SetTag(s, Pin(i), i, purge) else s
  }

  /** What any number of those steps may do: a pin is as it was, or good. */
  ghost predicate Rely(s: Store, t: Store) {
    && (WellFormed(s) ==> WellFormed(t))
    && forall i :: Good(t, i) || Inspect(t, ByTag(Pin(i))) == Inspect(s, ByTag(Pin(i)))
  }

  lemma StepIsRely(s: Store, e: Step)
    ensures Rely(s, Take(s, e))
  {
  }

  lemma RelyIsTransitive(s: Store, t: Store, u: Store)
    requires Rely(s, t) && Rely(t, u)
    ensures Rely(s, u)
  {
    hide WellFormed;
  }

  ghost predicate IsRun(run: seq<Store>, steps: seq<Step>) {
    && |run| == |steps| + 1
    && WellFormed(run[0])
    && forall k :: 0 <= k < |steps| ==> run[k + 1] == Take(run[k], steps[k])
  }

  /** An image whose pin is good exists in every later state, whatever is rebuilt, removed or pinned. */
  lemma {:induction false} PinnedImageLives(run: seq<Store>, steps: seq<Step>, m: nat, n: nat, i: ImageId)
    requires IsRun(run, steps) && m <= n < |run| && Good(run[m], i)
    ensures Good(run[n], i) && i in run[n].images
    decreases n
  {
    StaysWellFormed(run, steps, n);
    if m < n {
      PinnedImageLives(run, steps, m, n - 1, i);
      StepIsRely(run[n - 1], steps[n - 1]);
    }
  }

  lemma {:induction false} StaysWellFormed(run: seq<Store>, steps: seq<Step>, n: nat)
    requires IsRun(run, steps) && n < |run|
    ensures WellFormed(run[n])
    decreases n
  {
    if n > 0 {
      StaysWellFormed(run, steps, n - 1);
      StepIsRely(run[n - 1], steps[n - 1]);
    }
  }

  /** Without its pin an image does not: the rebuild of the only tag it has takes it. */
  lemma UnpinnedImageMayGo(s: Store, name: string, j: ImageId)
    requires LastTag(s, Name(name)) && s.tags[Name(name)] != j
    ensures s.tags[Name(name)] !in Take(s, Rebuilding(name, j, true)).images
  {
    assert LastTag(s.(images := s.images + {j}), Name(name));
  }

  /** So does the removal of that tag; with another tag left the image stays. */
  lemma UntaggedImageMayGo(s: Store, name: string, purge: bool)
    requires WellFormed(s) && Name(name) in s.tags
    ensures var t := Take(s, Removing(name, purge));
      && t.tags == s.tags - {Name(name)}
      && t.images == if purge && LastTag(s, Name(name)) then s.images - {s.tags[Name(name)]} else s.images
  {
  }

  /** A rebuild moves the name to the image it made. */
  lemma RebuiltNameMoves(s: Store, name: string, i: ImageId, purge: bool)
    ensures Take(s, Rebuilding(name, i, purge)).tags == s.tags[Name(name) := i]
    ensures i in Take(s, Rebuilding(name, i, purge)).images
  {
  }

  // ----- protectImage on its own

  datatype Outcome = Pinned | Already | ImageMissing | Threw

  function OwnPin(s: Store, i: ImageId, purge: bool): Store {
    match Inspect(s, ByTag(Pin(i)))
    case None => s
    case Some(j) => if Good(s, j) then s else SetTag(s, Pin(j), j, purge)
  }

  function Protected(s: Store, ref: Ref, purge: bool): (r: (Store, Outcome)) {
    match Inspect(s, ref)
    case None => (s, ImageMissing)
    case Some(i) =>
      if Good(s, i) then (s, Already)
      else
        var t := OwnPin(s, i, purge);
        if i in t.images then (SetTag(t, Pin(i), i, purge), Pinned) else (t, ImageMissing)
  }

  /** Protecting an image again changes nothing. */
  lemma ProtectIsIdempotent(s: Store, ref: Ref, purge: bool)
    requires WellFormed(s)
    ensures var (t, outcome) := Protected(s, ref, purge);
      outcome == Pinned || outcome == Already ==>
        Good(t, Inspect(s, ref).value) && Protected(t, ById(Inspect(s, ref).value), purge) == (t, Already)
  {
    var (t, outcome) := Protected(s, ref, purge);
    if outcome == Pinned || outcome == Already {
      ProtectKeepsWellFormed(s, ref, purge);
    }
  }

  lemma ProtectKeepsWellFormed(s: Store, ref: Ref, purge: bool)
    requires WellFormed(s)
    ensures WellFormed(Protected(s, ref, purge).0)
  {
  }

  /** The pin of the image was moved by hand to `j`, whose own pin was moved by hand to the last tag of a third. */
  ghost predicate Chained(s: Store, i: ImageId) {
    && Pin(i) in s.tags && s.tags[Pin(i)] != i
    && var j := s.tags[Pin(i)];
    && Pin(j) in s.tags && s.tags[Pin(j)] != j && LastTag(s, Pin(j))
  }

  /** On the store that purges, protecting an image loses one exactly when pins were moved by hand in a chain. */
  lemma ProtectLosesOnlyChained(s: Store, ref: Ref)
    requires WellFormed(s)
    ensures Protected(s, ref, true).0.images != s.images <==>
      Inspect(s, ref).Some? && Chained(s, Inspect(s, ref).value)
    ensures Protected(s, ref, true).0.images != s.images ==>
      Protected(s, ref, true).0.images == s.images - {s.tags[Pin(s.tags[Pin(Inspect(s, ref).value)])]}
  {
    match Inspect(s, ref) {
      case None =>
      case Some(i) =>
        if !Good(s, i) && Pin(i) in s.tags {
          DisplacedKeepsItsPin(s, i);
        }
    }
  }

  /** Such a chain: the pin of `i` on `j`, and the only tag of `k` the pin of `j`. */
  lemma ChainLosesItsEnd(name: string, i: ImageId, j: ImageId, k: ImageId)
    requires i != j && j != k && i != k
    ensures var s := Store(map[Pin(i) := j, Pin(j) := k, Name(name) := i], {i, j, k});
      WellFormed(s) && Protected(s, ByTag(Name(name)), true).0.images == {i, j}
  {
    var s := Store(map[Pin(i) := j, Pin(j) := k, Name(name) := i], {i, j, k});
    ProtectLosesOnlyChained(s, ByTag(Name(name)));
    assert s.images - {k} == {i, j};
  }

  /** The image a pin is taken from has its own pin by then, so it does not lose its last tag. */
  lemma DisplacedKeepsItsPin(s: Store, i: ImageId)
    requires WellFormed(s) && Pin(i) in s.tags && s.tags[Pin(i)] != i
    ensures var j := s.tags[Pin(i)];
      Good(OwnPin(s, i, true), j) && OwnPin(s, i, true).tags[Pin(i)] == j && !LastTag(OwnPin(s, i, true), Pin(i))
  {
    var j, t := s.tags[Pin(i)], OwnPin(s, i, true);
    assert t.tags[Pin(j)] == j == t.tags[Pin(i)];
  }

  // ----- The code, with everybody else at every await

  type ContainerId = nat

  /** A listed container; `image` is None when Docker names none. */
  datatype Listed = Listed(id: ContainerId, image: Option<ImageId>, isSession: bool)

  datatype Row = RowPinned | RowUnpinned | RowExcepted | RowMissing
  datatype Exception = Exception(container: ContainerId, image: ImageId)

  /** How the part of a spawn that is modelled ends; `removed` says the removal of the container was confirmed. */
  datatype SpawnResult =
    | Started(c: ContainerId)
    | NoContainer
    | CheckFailed(c: ContainerId, removed: bool)
    | NotRecorded(c: ContainerId, removed: bool)

  class Docker {
    const purges: bool
    var tags: map<Tag, ImageId>
    var images: set<ImageId>
    /** The image each container was created from, and which of them are there. */
    var containers: map<ContainerId, ImageId>
    var live: set<ContainerId>
    /** D1: the container of each session. */
    var recorded: map<SessionId, ContainerId>
    /** The containers spawn created and checked with pins on. */
    ghost var vouched: set<ContainerId>

    ghost function View(): Store
      reads this
    {
      Store(tags, images)
    }

    ghost predicate Valid()
      reads this
    {
      && WellFormed(View())
      && live <= containers.Keys
      && forall c :: c in vouched ==> c in containers && Good(View(), containers[c])
    }

    constructor (purges: bool, tags: map<Tag, ImageId>, images: set<ImageId>)
      requires WellFormed(Store(tags, images))
      ensures Valid() && View() == Store(tags, images) && this.purges == purges && vouched == {}
    {
      this.purges, this.tags, this.images := purges, tags, images;
      containers, live, recorded, vouched := map[], {}, map[], {};
    }

    /** An await: unless `calm`, others take any number of steps. */
    method Await(calm: bool)
      modifies this`tags, this`images
      ensures Rely(old(View()), View())
      ensures calm ==> View() == old(View())
    {
      if !calm {
        var steps: seq<Step> := *;
        for k := 0 to |steps|
          invariant Rely(old(View()), View())
        {
          StepIsRely(View(), steps[k]);
          RelyIsTransitive(old(View()), View(), Take(View(), steps[k]));
          var next := Take(Store(tags, images), steps[k]);
          tags, images := next.tags, next.images;
        }
      }
    }

    method InspectImage(ref: Ref, calm: bool) returns (i: Option<ImageId>)
      modifies this`tags, this`images
      ensures Rely(old(View()), View()) && (calm ==> View() == old(View()))
      ensures i == Inspect(View(), ref)
    {
      Await(calm);
      i := Inspect(Store(tags, images), ref);
    }

    /** Docker's tag of an image by its id to its own pin; false when the image is gone. */
    method TagPin(i: ImageId, calm: bool) returns (ok: bool)
      modifies this`tags, this`images
      ensures Rely(old(View()), View())
      ensures ok ==> Good(View(), i)
      ensures calm ==> ok == (i in old(images)) && View() == if ok then SetTag(old(View()), Pin(i), i, purges) else old(View())
    {
      Await(calm);
      if i !in images {
        return false;
      }
      StepIsRely(View(), Pinning(i, purges));
      RelyIsTransitive(old(View()), View(), Take(View(), Pinning(i, purges)));
      var next := SetTag(Store(tags, images), Pin(i), i, purges);
      tags, images := next.tags, next.images;
      ok := true;
    }

    /**
     protectImage. Whatever happens at its awaits: when it reports success the pin is good, and the image the pin
     was taken from has a good pin of its own. Left alone it does exactly what Protected says.
     */
    method ProtectImage(ref: Ref, calm: bool) returns (outcome: Outcome, image: Option<ImageId>)
      requires WellFormed(View())
      modifies this`tags, this`images
      ensures Rely(old(View()), View())
      ensures ref.ById? ==> image.None? || image == Some(ref.id)
      ensures outcome == Pinned || outcome == Already ==> image.Some? && Good(View(), image.value)
      ensures ref.ById? && Good(old(View()), ref.id) ==> outcome == Already
      ensures outcome == Pinned && old(Pin(image.value) in tags) ==>
        old(tags)[Pin(image.value)] != image.value && Good(View(), old(tags)[Pin(image.value)])
      ensures calm ==> (View(), outcome) == Protected(old(View()), ref, purges) && image == Inspect(old(View()), ref)
    {
      hide WellFormed, LastTag;
      ghost var s0 := View();
      image := InspectImage(ref, calm);
      ghost var s1 := View();
      RelyKeepsGood(s0, s1);
      if ref.ById? {
        WellFormedTag(s1, Pin(ref.id));
      }
      if image.None? {
        return ImageMissing, None;
      }
      var i := image.value;
      var current := InspectImage(ByTag(Pin(i)), calm);
      ghost var s2 := View();
      RelyKeepsGood(s1, s2);
      RelyIsTransitive(s0, s1, s2);
      if current == Some(i) {
        return Already, image;
      }
      if current.Some? {
        var j := current.value;
        var own := InspectImage(ByTag(Pin(j)), calm);
        if own != Some(j) {
          var ok := TagPin(j, calm);
          if !ok {
            assert calm ==> j in s0.images by { WellFormedTag(s0, Pin(i)); }
            RelyIsTransitive(s0, s2, View());
            return Threw, image;
          }
        }
        RelyIsTransitive(s0, s2, View());
      }
      ghost var s3 := View();
      RelyIsTransitive(s0, s2, s3);
      var fails: bool := *;
      if !calm && fails {
        return Threw, image;
      }
      var ok := TagPin(i, calm);
      ghost var s4 := View();
      RelyIsTransitive(s0, s3, s4);
      if !ok {
        return ImageMissing, image;
      }
      var after := InspectImage(ByTag(Pin(i)), calm);
      RelyIsTransitive(s0, s4, View());
      outcome := if after == Some(i) then Pinned else Threw;
    }

    /**
     ensurePinned. The id it returns is the one `ref` named when it looked, at `seen`, and has a good pin; none is returned
     exactly when `ref` named none then or protecting it failed.
     */
    method EnsurePinned(ref: Ref, calm: bool) returns (r: Option<ImageId>, ghost seen: Store, ghost outcome: Outcome)
      requires WellFormed(View())
      modifies this`tags, this`images
      ensures Rely(old(View()), View()) && Rely(old(View()), seen)
      ensures r.Some? ==> r == Inspect(seen, ref) && Good(View(), r.value)
      ensures r.None? <==> Inspect(seen, ref).None? || outcome == ImageMissing || outcome == Threw
      ensures calm ==> seen == old(View())
      ensures calm && Inspect(seen, ref).Some? ==> (View(), outcome) == Protected(seen, ById(Inspect(seen, ref).value), purges)
    {
      hide WellFormed, LastTag, Protected;
      ghost var s0 := View();
      var i := InspectImage(ref, calm);
      ghost var s1 := View();
      seen, outcome := s1, ImageMissing;
      if i.None? {
        return None, seen, outcome;
      }
      var done, image := ProtectImage(ById(i.value), calm);
      outcome := done;
      RelyIsTransitive(s0, s1, View());
      r := if done == Pinned || done == Already then i else None;
    }

    /** verifyCreated: the container is there, runs exactly that image and, with pins on, the pin still names it. */
    method VerifyCreated(c: ContainerId, i: ImageId, pins: bool, calm: bool) returns (ok: bool)
      modifies this`tags, this`images
      ensures Rely(old(View()), View())
      ensures ok ==> c in live && c in containers && containers[c] == i && (pins ==> Good(View(), i))
      ensures calm ==> View() == old(View())
      ensures calm ==> (ok <==> c in live && c in containers && containers[c] == i && (pins ==> Good(View(), i)))
    {
      hide WellFormed, LastTag;
      ghost var s0 := View();
      Await(calm);
      ghost var s1 := View();
      if c !in live || c !in containers || containers[c] != i {
        return false;
      }
      if !pins {
        return true;
      }
      var pin := InspectImage(ByTag(Pin(i)), calm);
      RelyIsTransitive(s0, s1, View());
      ok := pin == Some(i);
    }

    /**
     What the daemon answers to a create: nothing, an adopted container of that name, or a new one on some image; when
     `sound`, one of the two latter, and a new one on the image asked for.
     */
    method CreateContainer(asked: ImageId, sound: bool) returns (c: Option<ContainerId>, isNew: bool)
      requires live <= containers.Keys
      modifies this`containers, this`live
      ensures live <= containers.Keys
      ensures forall x :: x in old(containers) ==> x in containers && containers[x] == old(containers)[x]
      ensures c.Some? ==> c.value in live && (isNew <==> c.value !in old(containers))
      ensures c.Some? ==> live == (if isNew then old(live) + {c.value} else old(live))
      ensures c.None? ==> containers == old(containers) && live == old(live) && !sound
      ensures sound && isNew ==> containers[c.value] == asked
    {
      var id: ContainerId := *;
      if id in live {
        return Some(id), false;
      }
      if id in containers {
        if !sound {
          return None, false;
        }
        FreshExists(containers.Keys);
        id :| id !in containers;
      }
      var image: ImageId := *;
      if sound {
        image := asked;
      }
      containers, live := containers[id := image], live + {id};
      return Some(id), true;
    }

    /** remove, forced: confirmed when it succeeded or there was nothing to remove; an error may hide a removal. */
    method RemoveContainer(c: ContainerId) returns (removed: bool)
      modifies this`live
      ensures live == old(live) || live == old(live) - {c}
      ensures removed ==> c !in live
    {
      removed := *;
      var effect: bool := *;
      if removed || effect {
        live := live - {c};
      }
    }

    /**
     The part of a spawn that picks the image, creates or adopts the container, checks it and records it. A container it
     creates and keeps runs the image that `ref` named when it looked, at `seen`; with pins on, its pin is good. A new
     container that fails the check is never recorded, and is gone unless its removal erred; the same goes for one D1 does
     not record. Undisturbed, and with a `sound` daemon and D1, it starts when the image is there and can be pinned.
     */
    method Spawn(sid: SessionId, ref: Ref, pins: bool, calm: bool, sound: bool) returns (result: SpawnResult, ghost seen: Store)
      requires Valid()
      modifies this
      ensures Valid() && old(vouched) <= vouched
      ensures Rely(old(View()), seen) && (calm ==> seen == old(View())) && (calm && !pins ==> View() == old(View()))
      ensures calm && pins && (result.Started? || result.NotRecorded?) && result.c in old(containers) ==>
        Good(View(), old(containers)[result.c]) || old(containers)[result.c] !in images
      ensures calm && sound && Inspect(old(View()), ref).Some? && (pins ==> CanPin(old(View()), Inspect(old(View()), ref).value, purges)) ==>
        result.Started?
      ensures (result.Started? || result.NotRecorded?) && result.c !in old(containers) ==>
        result.c in containers && Inspect(seen, ref) == Some(containers[result.c])
      ensures Rely(old(View()), View())
      ensures forall x :: x in old(containers) ==> x in containers && containers[x] == old(containers)[x]
      ensures match result
        case NoContainer => recorded == old(recorded) && live == old(live)
        case Started(c) =>
          && recorded == old(recorded)[sid := c] && live == old(live) + {c}
          && (pins && c !in old(containers) ==> c in vouched)
        case CheckFailed(c, removed) =>
          && recorded == old(recorded) && c !in old(containers) && c !in vouched
          && live - {c} == old(live) && (removed ==> c !in live)
        case NotRecorded(c, removed) =>
          && (recorded == old(recorded) || recorded == old(recorded)[sid := c])
          && (pins && c !in old(containers) ==> c in vouched)
          && live - {c} == old(live) - {c} && (removed ==> c !in live)
    {
      hide WellFormed, LastTag, Protected, Rely, Good;
      ghost var s0 := View();
      var image;
      image, seen := ImageForCreate(ref, pins, calm);
      KeepsVouched(s0);
      if image.None? {
        return NoContainer, seen;
      }
      ghost var s1 := View();
      var created, isNew := CreateContainer(image.value, sound);
      if created.None? {
        return NoContainer, seen;
      }
      var c := created.value;
      if isNew {
        var ok := VerifyCreated(c, image.value, pins, calm);
        RelyIsTransitive(s0, s1, View());
        KeepsVouched(s0);
        if !ok {
          var removed := RemoveContainer(c);
          return CheckFailed(c, removed), seen;
        }
        if pins {
          vouched := vouched + {c};
        }
      } else if pins {
        PinAdopted(containers[c], calm);
        RelyIsTransitive(s0, s1, View());
        KeepsVouched(s0);
      }
      result := Record(sid, c, sound);
    }

    /** imageForCreate: with pins off the image is only looked up. */
    method ImageForCreate(ref: Ref, pins: bool, calm: bool) returns (image: Option<ImageId>, ghost seen: Store)
      requires WellFormed(View())
      modifies this`tags, this`images
      ensures Rely(old(View()), View()) && Rely(old(View()), seen) && (calm ==> seen == old(View()))
      ensures calm && !pins ==> View() == old(View())
      ensures image.Some? ==> image == Inspect(seen, ref)
      ensures calm && Inspect(seen, ref).Some? && (pins ==> CanPin(seen, Inspect(seen, ref).value, purges)) ==> image.Some?
      ensures pins && image.Some? ==> Good(View(), image.value)
    {
      if pins {
        ghost var outcome, before := *, View();
        image, seen, outcome := EnsurePinned(ref, calm);
        if calm && Inspect(before, ref).Some? && CanPin(before, Inspect(before, ref).value, purges) {
          CanPinMeans(before, Inspect(before, ref).value, purges);
        }
      } else {
        image := InspectImage(ref, calm);
        seen := View();
      }
    }

    /** pinContainerImage of an adopted container: best effort, and a failure is not passed on. */
    method PinAdopted(i: ImageId, calm: bool)
      requires WellFormed(View())
      modifies this`tags, this`images
      ensures Rely(old(View()), View())
      ensures calm ==> Good(View(), i) || i !in images
    {
      hide LastTag, WellFormed, Protected;
      ghost var s := View();
      var _, _ := ProtectImage(ById(i), calm);
      if calm {
        ProtectMakesNone(s, i, purges);
      }
    }

    /** setContainerId, whose write may take effect and still report an error; on an error the container is removed. */
    method Record(sid: SessionId, c: ContainerId, sound: bool) returns (result: SpawnResult)
      modifies this`recorded, this`live
      ensures result.Started? || result.NotRecorded?
      ensures result.c == c && live - {c} == old(live) - {c} && live <= old(live)
      ensures result.Started? ==> recorded == old(recorded)[sid := c] && live == old(live)
      ensures result.NotRecorded? ==> recorded == old(recorded) || recorded == old(recorded)[sid := c]
      ensures result.NotRecorded? && result.removed ==> c !in live
      ensures sound ==> result.Started?
    {
      var stored, reported: bool := *, *;
      stored, reported := stored || sound, reported || sound;
      if stored {
        recorded := recorded[sid := c];
      }
      if !stored || !reported {
        var removed := RemoveContainer(c);
        return NotRecorded(c, removed);
      }
      result := Started(c);
    }

    /** Whatever others did since `s`, the vouched containers keep their pins. */
    lemma KeepsVouched(s: Store)
      requires WellFormed(s) && Rely(s, View())
      ensures WellFormed(View())
      ensures forall i :: Good(s, i) ==> Good(View(), i)
    {
    }

    /** The boot pass: every image of a session container ends in exactly one list, and the first two have good pins. */
    method PinSessionImages(list: seq<Listed>, calm: bool)
      returns (pinned: set<ImageId>, already: set<ImageId>, missing: set<ImageId>, failed: set<ImageId>,
               ghost turns: map<ImageId, Store>)
      requires WellFormed(View())
      modifies this`tags, this`images
      ensures Rely(old(View()), View())
      ensures pinned + already + missing + failed == SessionImages(list)
      ensures pinned !! already !! missing !! failed
      ensures forall i :: i in pinned + already ==> Good(View(), i)
      ensures forall i :: i in SessionImages(list) && Good(old(View()), i) ==> i in already
      ensures calm ==> failed == {} && forall i :: i in missing ==> i !in images
      ensures turns.Keys == SessionImages(list) && forall i :: i in turns ==> Rely(old(View()), turns[i])
      ensures calm ==> forall i :: i in turns ==>
        && (i in pinned <==> Protected(turns[i], ById(i), purges).1 == Pinned)
        && (i in already <==> Protected(turns[i], ById(i), purges).1 == Already)
    {
      hide WellFormed, LastTag, Protected;
      var byImage: set<ImageId> := {};
      for k := 0 to |list|
        invariant byImage == SessionImages(list[..k])
      {
        assert list[..k + 1] == list[..k] + [list[k]];
        if list[k].isSession && list[k].image.Some? {
          byImage := byImage + {list[k].image.value};
        }
      }
      assert list[..|list|] == list;
      ghost var s0 := View();
      pinned, already, missing, failed, turns := {}, {}, {}, {}, map[];
      var left := byImage;
      while left != {}
        invariant Rely(s0, View()) && WellFormed(View())
        invariant left <= byImage && pinned + already + missing + failed == byImage - left
        invariant pinned !! already !! missing !! failed
        invariant forall i :: i in pinned + already ==> Good(View(), i)
        invariant forall i :: i in byImage - left && Good(s0, i) ==> i in already
        invariant calm ==> failed == {} && forall i :: i in missing ==> i !in images
        invariant turns.Keys == byImage - left && forall i :: i in turns ==> Rely(s0, turns[i])
        invariant calm ==> forall i :: i in turns ==>
          && (i in pinned <==> Protected(turns[i], ById(i), purges).1 == Pinned)
          && (i in already <==> Protected(turns[i], ById(i), purges).1 == Already)
        decreases left
        modifies this`tags, this`images
      {
        var i :| i in left;
        left := left - {i};
        ghost var s1 := View();
        turns := turns[i := s1];
        var outcome, _ := ProtectImage(ById(i), calm);
        RelyKeepsGood(s0, s1);
        RelyIsTransitive(s0, s1, View());
        if calm {
          ProtectMakesNone(s1, i, purges);
        }
        match outcome {
          case Pinned => pinned := pinned + {i};
          case Already => already := already + {i};
          case ImageMissing => missing := missing + {i};
          case Threw => failed := failed + {i};
        }
      }
    }

    /**
     The gate, with others at every await. GO means pins are on, the exceptions are readable, and the image of every
     session container has a good pin by now or is excepted by its exact pair. With all those pins good from the start
     it says GO. Left alone it says GO exactly when every session container is accepted.
     */
    method Evaluate(list: seq<Listed>, pins: bool, exceptions: Option<seq<Exception>>, calm: bool)
      returns (go: bool, rows: seq<(ContainerId, Row)>)
      requires WellFormed(View())
      modifies this`tags, this`images
      ensures Rely(old(View()), View())
      ensures go ==> pins && exceptions.Some? && AllBacked(View(), list, exceptions.value)
      ensures pins && exceptions.Some? && AllPinned(old(View()), list) ==> go
      ensures calm ==> View() == old(View())
      ensures calm ==> (go <==> pins && exceptions.Some? && AllAccepted(View(), list, exceptions.value))
      ensures calm ==> forall k :: 0 <= k < |list| && list[k].isSession && list[k].image.Some? ==>
        (list[k].id, Judged(View(), list[k].id, list[k].image.value, if exceptions.Some? then exceptions.value else [])) in rows
    {
      hide WellFormed, Rely, Good;
      go := pins && exceptions.Some?;
      rows := [];
      var excepted := if exceptions.Some? then exceptions.value else [];
      ghost var s0 := View();
      RelyIsReflexive(s0);
      for k := 0 to |list|
        invariant Rely(s0, View()) && WellFormed(View()) && (calm ==> View() == s0)
        invariant go ==> pins && exceptions.Some? && AllBacked(View(), list[..k], excepted)
        invariant pins && exceptions.Some? && AllPinned(s0, list[..k]) ==> go
        invariant calm ==> (go <==> pins && exceptions.Some? && AllAccepted(View(), list[..k], excepted))
        invariant calm ==> forall n :: 0 <= n < k && list[n].isSession && list[n].image.Some? ==>
          (list[n].id, Judged(View(), list[n].id, list[n].image.value, excepted)) in rows
      {
        assert list[..k + 1] == list[..k] + [list[k]];
        var c := list[k];
        if !c.isSession {
          continue;
        }
        if c.image.None? {
          go := false;
          continue;
        }
        ghost var s1 := View();
        var row := RowOf(c.id, c.image.value, excepted, calm);
        RelyIsTransitive(s0, s1, View());
        RelyKeepsGood(s0, s1);
        RelyKeepsGood(s1, View());
        if row == RowUnpinned || row == RowMissing {
          go := false;
        }
        rows := rows + [(c.id, row)];
      }
      assert list[..|list|] == list;
    }

    method RowOf(c: ContainerId, i: ImageId, excepted: seq<Exception>, calm: bool) returns (row: Row)
      requires WellFormed(View())
      modifies this`tags, this`images
      ensures Rely(old(View()), View()) && WellFormed(View())
      ensures calm ==> View() == old(View()) && row == Judged(View(), c, i, excepted)
      ensures row == RowPinned ==> Good(View(), i)
      ensures row == RowExcepted ==> Exception(c, i) in excepted
      ensures Good(old(View()), i) ==> row == RowPinned
    {
      var image := InspectImage(ById(i), calm);
      if image.None? {
        return if Exception(c, i) in excepted then RowExcepted else RowMissing;
      }
      ghost var s1 := View();
      var pin := InspectImage(ByTag(Pin(i)), calm);
      RelyIsTransitive(old(View()), s1, View());
      row := if pin == Some(i) then RowPinned else RowUnpinned;
    }
  }

  lemma {:induction false} Bounded(ids: set<ContainerId>) returns (bound: nat)
    ensures forall c :: c in ids ==> c < bound
    decreases |ids|
  {
    bound := 0;
    if c :| c in ids {
      bound := Bounded(ids - {c});
      bound := if c < bound then bound else c + 1;
      assert forall d :: d in ids ==> d == c || d in ids - {c};
    }
  }

  lemma FreshExists(ids: set<ContainerId>)
    ensures exists c: ContainerId :: c !in ids
  {
    var bound := Bounded(ids);
    assert bound !in ids;
  }

  /** On its own protection makes no image, misses only one that is gone, and does not fail. */
  lemma ProtectMakesNone(s: Store, i: ImageId, purge: bool)
    requires WellFormed(s)
    ensures var (t, outcome) := Protected(s, ById(i), purge);
      t.images <= s.images && outcome != Threw && (outcome == ImageMissing ==> i !in t.images)
  {
  }

  /** Protecting the image on its own gives it a good pin. */
  predicate CanPin(s: Store, i: ImageId, purge: bool) {
    Good(Protected(s, ById(i), purge).0, i)
  }

  lemma CanPinMeans(s: Store, i: ImageId, purge: bool)
    requires WellFormed(s) && CanPin(s, i, purge)
    ensures Protected(s, ById(i), purge).1 == Pinned || Protected(s, ById(i), purge).1 == Already
  {
    ProtectMakesNone(s, i, purge);
    ProtectKeepsWellFormed(s, ById(i), purge);
    WellFormedTag(Protected(s, ById(i), purge).0, Pin(i));
    hide Protected, WellFormed;
  }

  lemma WellFormedTag(s: Store, t: Tag)
    requires WellFormed(s)
    ensures t in s.tags ==> s.tags[t] in s.images
  {
  }

  lemma RelyKeepsGood(s: Store, t: Store)
    requires Rely(s, t)
    ensures WellFormed(s) ==> WellFormed(t)
    ensures forall i :: Good(s, i) ==> Good(t, i)
  {
    hide WellFormed;
  }

  lemma RelyIsReflexive(s: Store)
    ensures Rely(s, s)
  {
  }

  function SessionImages(list: seq<Listed>): set<ImageId> {
    set c | c in list && c.isSession && c.image.Some? :: c.image.value
  }

  /** An existing image must be pinned; a missing one must be excepted by the exact pair. */
  predicate Accepted(s: Store, c: ContainerId, i: ImageId, exceptions: seq<Exception>) {
    if i in s.images then Good(s, i) else Exception(c, i) in exceptions
  }

  ghost predicate AllPinned(s: Store, list: seq<Listed>) {
    forall c :: c in list && c.isSession ==> c.image.Some? && Good(s, c.image.value)
  }

  ghost predicate AllBacked(s: Store, list: seq<Listed>, exceptions: seq<Exception>) {
    forall c :: c in list && c.isSession ==>
      c.image.Some? && (Good(s, c.image.value) || Exception(c.id, c.image.value) in exceptions)
  }

  ghost predicate AllAccepted(s: Store, list: seq<Listed>, exceptions: seq<Exception>) {
    forall c :: c in list && c.isSession ==> c.image.Some? && Accepted(s, c.id, c.image.value, exceptions)
  }

  function Judged(s: Store, c: ContainerId, i: ImageId, exceptions: seq<Exception>): (row: Row)
    ensures row == RowPinned || row == RowExcepted <==> Accepted(s, c, i, exceptions)
  {
    if i in s.images then if Good(s, i) then RowPinned else RowUnpinned
    else if Exception(c, i) in exceptions then RowExcepted else RowMissing
  }
}
