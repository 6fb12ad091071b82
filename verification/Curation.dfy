/** Curating reference photos: reject what cannot be used and what repeats a photo already kept. */
module Curation {

  /** A perceptual hash of 64 bits. */
  type Hash = h: seq<bool> | |h| == 64 witness seq(64, _ => false)

  /** What the face detector measured on the photo. */
  datatype Metrics = Metrics(faces: nat, faceWidth: int, faceArea: real, yaw: real, pitch: real)
  datatype Photo = Photo(id: string, present: bool, rights: bool, width: int, height: int, hash: Hash, metrics: Metrics)

  datatype Reason = FileMissing | RightsIncomplete | LowResolution | NoFace | MultiFace | FaceTooNarrow | FaceTooSmall
                  | PoseYaw | PosePitch | PerceptualDuplicate(of: string)
  datatype Rejection = Rejection(photo: Photo, reasons: seq<Reason>)

  const DUPLICATE_DISTANCE := 8
  const MIN_FACE_AREA := 0.10
  const MIN_FACE_WIDTH := 160
  const MAX_YAW := 45.0
  const MAX_PITCH := 30.0

  function Hamming(a: seq<bool>, b: seq<bool>): nat
    requires |a| == |b|
  {
    if a == [] then 0 else (if a[0] != b[0] then 1 else 0) + Hamming(a[1..], b[1..])
  }

  function Distance(a: Photo, b: Photo): nat {
    Hamming(a.hash, b.hash)
  }

  lemma {:induction false} HammingSymmetric(a: seq<bool>, b: seq<bool>)
    requires |a| == |b|
    ensures Hamming(a, b) == Hamming(b, a) && Hamming(a, a) == 0
  {
    if a != [] {
      HammingSymmetric(a[1..], b[1..]);
    }
  }

  function Differences(a: seq<bool>, b: seq<bool>): set<nat>
    requires |a| == |b|
  {
    set i: nat | i < |a| && a[i] != b[i]
  }

  lemma DifferencesStep(a: seq<bool>, b: seq<bool>)
    requires |a| == |b| && a != []
    ensures Differences(a, b) == Moved(Differences(a[1..], b[1..])) + (if a[0] != b[0] then {0} else {})
    ensures 0 !in Moved(Differences(a[1..], b[1..]))
  {
    var later := Differences(a[1..], b[1..]);
    forall i: nat
      ensures i in Differences(a, b) <==> i in Moved(later) || (i == 0 && a[0] != b[0])
    {
      if i in Differences(a, b) && i > 0 {
        assert a[1..][i - 1] == a[i] && b[1..][i - 1] == b[i];
        assert i - 1 in later && i == (i - 1) + 1;
      }
      if i in Moved(later) {
        var j :| j in later && i == j + 1;
        assert a[1..][j] == a[i] && b[1..][j] == b[i];
      }
    }
  }

  /** The distance of two hashes is the number of places where they differ. */
  lemma {:induction false} HammingCountsDifferences(a: seq<bool>, b: seq<bool>)
    requires |a| == |b|
    ensures Hamming(a, b) == |Differences(a, b)|
  {
    if a == [] {
      assert Differences(a, b) == {};
    } else {
      hide Differences, Moved;
      HammingCountsDifferences(a[1..], b[1..]);
      MovedSize(Differences(a[1..], b[1..]));
      DifferencesStep(a, b);
    }
  }

  function Moved(s: set<nat>): set<nat> {
    set i | i in s :: i + 1
  }

  lemma {:induction false} MovedSize(s: set<nat>)
    ensures |Moved(s)| == |s|
  {
    if s != {} {
      var x :| x in s;
      MovedSize(s - {x});
      assert x + 1 !in Moved(s - {x});
      forall i
        ensures i in Moved(s) <==> i in Moved(s - {x}) + {x + 1}
      {
        if j :| j in s && i == j + 1 {
          assert j == x || j in s - {x};
        }
        if j :| j in s - {x} && i == j + 1 {
          assert j in s;
        }
      }
      assert Moved(s) == Moved(s - {x}) + {x + 1};
    }
  }

  function Abs(x: real): real {
    if x < 0.0 then -x else x
  }

  function Quality(m: Metrics): seq<Reason> {
    if m.faces == 0 then [NoFace]
    else
      (if m.faces > 1 then [MultiFace] else []) + (if m.faceWidth < MIN_FACE_WIDTH then [FaceTooNarrow] else [])
      + (if m.faceArea < MIN_FACE_AREA then [FaceTooSmall] else []) + (if Abs(m.yaw) > MAX_YAW then [PoseYaw] else [])
      + (if Abs(m.pitch) > MAX_PITCH then [PosePitch] else [])
  }

  /** What rules a photo out before its hash is taken: the first of these alone. */
  function Barred(p: Photo, minEdge: int): seq<Reason> {
    if !p.present then [FileMissing]
    else if !p.rights then [RightsIncomplete]
    else if (if p.width < p.height then p.width else p.height) < minEdge then [LowResolution]
    else []
  }

  predicate Acceptable(p: Photo, minEdge: int) {
    Barred(p, minEdge) == [] && Quality(p.metrics) == []
  }

  /** Where the first keeper near the photo stands, or past the end. */
  function FirstNear(keepers: seq<Photo>, p: Photo): (i: nat)
    ensures i <= |keepers|
    ensures i < |keepers| ==> Distance(p, keepers[i]) <= DUPLICATE_DISTANCE
    ensures forall j | 0 <= j < i :: Distance(p, keepers[j]) > DUPLICATE_DISTANCE
  {
    if keepers == [] || Distance(p, keepers[0]) <= DUPLICATE_DISTANCE then 0 else 1 + FirstNear(keepers[1..], p)
  }

  /** The identifier of the first near keeper; an empty one reads as none. */
  function DuplicateOf(keepers: seq<Photo>, p: Photo): string {
    var i := FirstNear(keepers, p);
    if i < |keepers| then keepers[i].id else ""
  }

  function Reasons(p: Photo, minEdge: int, keepers: seq<Photo>): seq<Reason> {
    if Barred(p, minEdge) != [] then Barred(p, minEdge)
    else
      var dup := DuplicateOf(keepers, p);
      Quality(p.metrics) + (if dup != "" then [PerceptualDuplicate(dup)] else [])
  }

  function Kept(photos: seq<Photo>, minEdge: int): seq<Photo> {
    if photos == [] then []
    else
      var n := |photos| - 1;
      var keepers := Kept(photos[..n], minEdge);
      if Reasons(photos[n], minEdge, keepers) == [] then keepers + [photos[n]] else keepers
  }

  function Rejected(photos: seq<Photo>, minEdge: int): seq<Rejection> {
    if photos == [] then []
    else
      var n := |photos| - 1;
      var reasons := Reasons(photos[n], minEdge, Kept(photos[..n], minEdge));
      Rejected(photos[..n], minEdge) + (if reasons == [] then [] else [Rejection(photos[n], reasons)])
  }

  // ---- the stage ----------------------------------------------------------------------------------

  /** Every failed test is named, in order; a photo is fit exactly when it shows one face, wide and large enough and
      turned no further than the limits. */
  method QualityOk(m: Metrics) returns (reasons: seq<Reason>)
    ensures reasons == Quality(m)
    ensures reasons == [] <==>
              && m.faces == 1 && m.faceWidth >= MIN_FACE_WIDTH && m.faceArea >= MIN_FACE_AREA
              && -MAX_YAW <= m.yaw <= MAX_YAW && -MAX_PITCH <= m.pitch <= MAX_PITCH
  {
    QualityIsEmpty(m);
    hide Abs;
    if m.faces == 0 {
      return [NoFace];
    }
    reasons := [];
    if m.faces > 1 {
      reasons := [MultiFace];
    }
    reasons := Note(reasons, m.faceWidth < MIN_FACE_WIDTH, FaceTooNarrow);
    reasons := Note(reasons, m.faceArea < MIN_FACE_AREA, FaceTooSmall);
    reasons := Note(reasons, Abs(m.yaw) > MAX_YAW, PoseYaw);
    reasons := Note(reasons, Abs(m.pitch) > MAX_PITCH, PosePitch);
  }

  lemma QualityIsEmpty(m: Metrics)
    ensures Quality(m) == [] <==>
              && m.faces == 1 && m.faceWidth >= MIN_FACE_WIDTH && m.faceArea >= MIN_FACE_AREA
              && -MAX_YAW <= m.yaw <= MAX_YAW && -MAX_PITCH <= m.pitch <= MAX_PITCH
  {
  }

  method Note(reasons: seq<Reason>, fails: bool, reason: Reason) returns (noted: seq<Reason>)
    ensures noted == reasons + (if fails then [reason] else [])
  {
    noted := reasons;
    if fails {
      noted := noted + [reason];
    }
  }

  method FindDuplicate(keepers: seq<Photo>, p: Photo) returns (dup: string)
    ensures dup == DuplicateOf(keepers, p)
  {
    hide Hamming;
    for i := 0 to |keepers|
      invariant forall j | 0 <= j < i :: Distance(p, keepers[j]) > DUPLICATE_DISTANCE
    {
      if Distance(p, keepers[i]) <= DUPLICATE_DISTANCE {
        return keepers[i].id;
      }
    }
    dup := "";
  }

  method Curate(photos: seq<Photo>, minEdge: int) returns (kept: seq<Photo>, rejected: seq<Rejection>)
    ensures kept == Kept(photos, minEdge) && rejected == Rejected(photos, minEdge)
  {
    hide Hamming, Quality, DuplicateOf;
    kept, rejected := [], [];
    for i := 0 to |photos|
      invariant kept == Kept(photos[..i], minEdge) && rejected == Rejected(photos[..i], minEdge)
    {
      assert photos[..i + 1][..i] == photos[..i];
      assert rejected + [] == rejected;
      var p := photos[i];
      if !p.present {
        rejected := rejected + [Rejection(p, [FileMissing])];
        continue;
      }
      if !p.rights {
        rejected := rejected + [Rejection(p, [RightsIncomplete])];
        continue;
      }
      if (if p.width < p.height then p.width else p.height) < minEdge {
        rejected := rejected + [Rejection(p, [LowResolution])];
        continue;
      }
      var dup := FindDuplicate(kept, p);
      var reasons := QualityOk(p.metrics);
      assert reasons + [] == reasons;
      if dup != "" {
        reasons := reasons + [PerceptualDuplicate(dup)];
      }
      if reasons != [] {
        rejected := rejected + [Rejection(p, reasons)];
      } else {
        kept := kept + [p];
      }
    }
    assert photos[..|photos|] == photos;
  }

  // ---- what curation guarantees -----------------------------------------------------------------------

  function Photos(rejected: seq<Rejection>): seq<Photo> {
    if rejected == [] then [] else Photos(rejected[..|rejected| - 1]) + [rejected[|rejected| - 1].photo]
  }

  lemma PhotosSnoc(rejected: seq<Rejection>, r: Rejection)
    ensures Photos(rejected + [r]) == Photos(rejected) + [r.photo]
  {
    assert (rejected + [r])[..|rejected|] == rejected;
  }

  /** Every photo is kept or rejected, and as often as it was given. */
  lemma {:induction false} KeptAndRejectedPartition(photos: seq<Photo>, minEdge: int)
    ensures multiset(Kept(photos, minEdge)) + multiset(Photos(Rejected(photos, minEdge))) == multiset(photos)
  {
    hide Reasons, Photos;
    if photos == [] {
      NoPhotos();
    } else {
      var n := |photos| - 1;
      var kept, rejected := Kept(photos[..n], minEdge), Rejected(photos[..n], minEdge);
      var reasons := Reasons(photos[n], minEdge, kept);
      KeptAndRejectedPartition(photos[..n], minEdge);
      assert photos == photos[..n] + [photos[n]];
      PartitionGrows(kept, rejected, photos[..n], photos[n], reasons);
      assert rejected + [] == rejected;
    }
  }

  lemma PartitionGrows(kept: seq<Photo>, rejected: seq<Rejection>, photos: seq<Photo>, p: Photo, reasons: seq<Reason>)
    requires multiset(kept) + multiset(Photos(rejected)) == multiset(photos)
    ensures multiset(kept + [p]) + multiset(Photos(rejected)) == multiset(photos + [p])
    ensures multiset(kept) + multiset(Photos(rejected + [Rejection(p, reasons)])) == multiset(photos + [p])
  {
    hide Photos;
    PhotosSnoc(rejected, Rejection(p, reasons));
  }

  lemma NoPhotos()
    ensures Photos([]) == []
  {
  }

  /** Two photos whose hashes differ in at most eight places. */
  predicate Near(p: Photo, q: Photo) {
    |Differences(p.hash, q.hash)| <= 8
  }

  /** A photo that can be used: there, with its rights, large enough, and showing one face, wide and large enough and turned
      no further than the limits. */
  predicate Usable(p: Photo, minEdge: int) {
    && p.present && p.rights && p.width >= minEdge && p.height >= minEdge
    && p.metrics.faces == 1 && p.metrics.faceWidth >= 160 && p.metrics.faceArea >= 0.10
    && -45.0 <= p.metrics.yaw <= 45.0 && -30.0 <= p.metrics.pitch <= 30.0
  }

  lemma UsableIsAcceptable(p: Photo, minEdge: int)
    ensures Usable(p, minEdge) <==> Acceptable(p, minEdge)
  {
    QualityIsEmpty(p.metrics);
    hide Quality;
  }

  /** The first keeper near the photo, if any, has no identifier. */
  predicate NoNamedTwin(keepers: seq<Photo>, p: Photo) {
    forall i | 0 <= i < |keepers| && Near(p, keepers[i]) && keepers[i].id != "" ::
      exists j | 0 <= j < i :: Near(p, keepers[j]) && keepers[j].id == ""
  }

  lemma NoTwinNoDuplicate(keepers: seq<Photo>, p: Photo)
    ensures NoNamedTwin(keepers, p) <==> DuplicateOf(keepers, p) == ""
  {
    hide Hamming, Differences;
    forall q
      ensures Near(p, q) <==> Distance(p, q) <= DUPLICATE_DISTANCE
    {
      HammingCountsDifferences(p.hash, q.hash);
    }
    hide Near, Distance;
    var f := FirstNear(keepers, p);
    if f < |keepers| {
      assert Near(p, keepers[f]);
    }
    assert forall i | 0 <= i < f :: !Near(p, keepers[i]);
  }

  /** The next photo is kept exactly when it can be used and the first keeper near it, if there is one, has no identifier. */
  lemma KeptExactlyWhen(photos: seq<Photo>, p: Photo, minEdge: int)
    ensures var keepers := Kept(photos, minEdge); var all := Kept(photos + [p], minEdge);
            && (all == keepers + [p] || all == keepers)
            && (all == keepers + [p] <==> Usable(p, minEdge) && NoNamedTwin(keepers, p))
  {
    hide Barred, Quality, DuplicateOf, NoNamedTwin, Usable;
    var keepers := Kept(photos, minEdge);
    assert (photos + [p])[..|photos|] == photos;
    UsableIsAcceptable(p, minEdge);
    NoTwinNoDuplicate(keepers, p);
    assert Quality(p.metrics) + [] == Quality(p.metrics);
    assert |keepers + [p]| != |keepers|;
  }

  /** Why a photo is turned away: a missing file, incomplete rights or a short edge alone, the first there is; or else every
      fault of the face, and the keeper it repeats. */
  lemma ReasonsExactly(p: Photo, minEdge: int, keepers: seq<Photo>)
    ensures var why := Reasons(p, minEdge, keepers); var edge := if p.width < p.height then p.width else p.height;
            && (!p.present ==> why == [FileMissing])
            && (p.present && !p.rights ==> why == [RightsIncomplete])
            && (p.present && p.rights && edge < minEdge ==> why == [LowResolution])
            && (p.present && p.rights && edge >= minEdge ==>
                  && (NoFace in why <==> p.metrics.faces == 0)
                  && (MultiFace in why <==> p.metrics.faces > 1)
                  && (FaceTooNarrow in why <==> p.metrics.faces > 0 && p.metrics.faceWidth < 160)
                  && (FaceTooSmall in why <==> p.metrics.faces > 0 && p.metrics.faceArea < 0.10)
                  && (PoseYaw in why <==> p.metrics.faces > 0 && !(-45.0 <= p.metrics.yaw <= 45.0))
                  && (PosePitch in why <==> p.metrics.faces > 0 && !(-30.0 <= p.metrics.pitch <= 30.0))
                  && FileMissing !in why && RightsIncomplete !in why && LowResolution !in why)
            && (forall a, b :: 0 <= a < b < |why| ==> Place(why[a]) < Place(why[b]))
  {
    hide DuplicateOf, Quality;
    FaultsExactly(p.metrics);
    FaultsInOrder(p.metrics);
  }

  function One(fails: bool, r: Reason): seq<Reason> {
    if fails then [r] else []
  }

  lemma FaultsExactly(m: Metrics)
    ensures var why := Quality(m);
            && (NoFace in why <==> m.faces == 0)
            && (MultiFace in why <==> m.faces > 1)
            && (FaceTooNarrow in why <==> m.faces > 0 && m.faceWidth < 160)
            && (FaceTooSmall in why <==> m.faces > 0 && m.faceArea < 0.10)
            && (PoseYaw in why <==> m.faces > 0 && !(-45.0 <= m.yaw <= 45.0))
            && (PosePitch in why <==> m.faces > 0 && !(-30.0 <= m.pitch <= 30.0))
            && FileMissing !in why && RightsIncomplete !in why && LowResolution !in why
  {
    if m.faces > 0 {
      var a, b, c, d, e := One(m.faces > 1, MultiFace), One(m.faceWidth < 160, FaceTooNarrow), One(m.faceArea < 0.10, FaceTooSmall),
                           One(Abs(m.yaw) > 45.0, PoseYaw), One(Abs(m.pitch) > 30.0, PosePitch);
      assert Quality(m) == a + b + c + d + e;
      forall r
        ensures r in Quality(m) <==> r in a || r in b || r in c || r in d || r in e
      {
        hide One, Quality;
      }
    }
  }

  lemma FaultsInOrder(m: Metrics)
    ensures var why := Quality(m);
            (forall a :: 0 <= a < |why| ==> Place(why[a]) < 9) && forall a, b :: 0 <= a < b < |why| ==> Place(why[a]) < Place(why[b])
  {
    hide Abs;
  }

  /** The order in which reasons are given. */
  function Place(r: Reason): nat {
    match r
    case FileMissing => 0
    case RightsIncomplete => 1
    case LowResolution => 2
    case NoFace => 3
    case MultiFace => 4
    case FaceTooNarrow => 5
    case FaceTooSmall => 6
    case PoseYaw => 7
    case PosePitch => 8
    case PerceptualDuplicate(_) => 9
  }

  predicate Apart(kept: seq<Photo>) {
    forall i, j :: 0 <= i < j < |kept| ==> Distance(kept[i], kept[j]) > DUPLICATE_DISTANCE
  }

  predicate Identified(photos: seq<Photo>) {
    forall i :: 0 <= i < |photos| ==> photos[i].id != ""
  }

  lemma {:induction false} KeptAreGiven(photos: seq<Photo>, minEdge: int)
    ensures forall p :: p in Kept(photos, minEdge) ==> p in photos && Acceptable(p, minEdge)
  {
    hide Barred, Quality, DuplicateOf;
    if photos != [] {
      var n := |photos| - 1;
      KeptAreGiven(photos[..n], minEdge);
      assert photos[n] in photos && forall p :: p in photos[..n] ==> p in photos;
    }
  }

  lemma {:induction false} KeptIdentified(photos: seq<Photo>, minEdge: int)
    requires Identified(photos)
    ensures Identified(Kept(photos, minEdge))
  {
    var kept := Kept(photos, minEdge);
    KeptAreGiven(photos, minEdge);
    forall i | 0 <= i < |kept|
      ensures kept[i].id != ""
    {
      assert kept[i] in photos;
    }
  }

  lemma KeeperIsFar(keepers: seq<Photo>, p: Photo)
    requires Identified(keepers) && DuplicateOf(keepers, p) == "" && Apart(keepers)
    ensures Apart(keepers + [p])
  {
    hide Hamming;
    forall j | 0 <= j < |keepers|
      ensures Distance(keepers[j], p) > DUPLICATE_DISTANCE
    {
      HammingSymmetric(keepers[j].hash, p.hash);
    }
  }

  /** With every identifier but the last one present, kept photos are pairwise more than eight bits apart. */
  lemma {:induction false} KeptAreApart(photos: seq<Photo>, minEdge: int)
    requires photos != [] ==> Identified(photos[..|photos| - 1])
    ensures Apart(Kept(photos, minEdge))
  {
    hide Barred, Quality, DuplicateOf, Distance;
    if photos != [] {
      var n := |photos| - 1;
      assert n > 0 ==> photos[..n][..n - 1] == photos[..n - 1];
      KeptAreApart(photos[..n], minEdge);
      KeptIdentified(photos[..n], minEdge);
      if Reasons(photos[n], minEdge, Kept(photos[..n], minEdge)) == [] {
        KeeperIsFar(Kept(photos[..n], minEdge), photos[n]);
      }
    }
  }

  function Ids(photos: seq<Photo>): seq<string> {
    if photos == [] then [] else Ids(photos[..|photos| - 1]) + [photos[|photos| - 1].id]
  }

  lemma {:induction false} IdsAt(photos: seq<Photo>)
    ensures |Ids(photos)| == |photos| && forall i :: 0 <= i < |photos| ==> Ids(photos)[i] == photos[i].id
  {
    if photos != [] {
      IdsAt(photos[..|photos| - 1]);
    }
  }

  /** The deduplication works for a list of identifiers exactly when every one but the last is non-empty: a keeper
      with an empty identifier does not count as a near one, so its duplicate is kept too. */
  lemma DeduplicationNeedsIdentifiers(ids: seq<string>, minEdge: int)
    ensures (forall photos | Ids(photos) == ids :: Apart(Kept(photos, minEdge)))
            <==> forall i | 0 <= i < |ids| - 1 :: ids[i] != ""
  {
    hide Kept;
    if forall i | 0 <= i < |ids| - 1 :: ids[i] != "" {
      forall photos | Ids(photos) == ids
        ensures Apart(Kept(photos, minEdge))
      {
        IdsAt(photos);
        KeptAreApart(photos, minEdge);
      }
    } else {
      var i :| 0 <= i < |ids| - 1 && ids[i] == "";
      var photos := TwinsAt(ids, i, minEdge);
    }
  }

  const FACE := Metrics(1, 200, 0.5, 0.0, 0.0)

  function Dark(): Hash {
    seq(64, _ => false)
  }

  function Blank(id: string, usable: bool, edge: int): Photo {
    Photo(id, usable, true, edge, edge, Dark(), FACE)
  }

  function Twins(ids: seq<string>, i: nat, minEdge: int): (photos: seq<Photo>)
    ensures |photos| == |ids| && forall k :: 0 <= k < |ids| ==> photos[k] == Blank(ids[k], k == i || k == i + 1, minEdge)
  {
    seq(|ids|, k requires 0 <= k < |ids| => Blank(ids[k], k == i || k == i + 1, minEdge))
  }

  lemma TwinIds(ids: seq<string>, i: nat, minEdge: int)
    ensures Ids(Twins(ids, i, minEdge)) == ids
  {
    hide Twins;
    IdsAt(Twins(ids, i, minEdge));
  }

  lemma SamePictureIsNotApart(first: Photo, second: Photo)
    requires first.hash == second.hash
    ensures !Apart([first, second])
  {
    HammingSymmetric(first.hash, second.hash);
    assert Distance([first, second][0], [first, second][1]) == 0;
  }

  /** Only two photos are usable, they are the same picture, and the first has no identifier: both are kept. */
  lemma TwinsAt(ids: seq<string>, i: nat, minEdge: int) returns (photos: seq<Photo>)
    requires i + 1 < |ids| && ids[i] == ""
    ensures Ids(photos) == ids && !Apart(Kept(photos, minEdge))
  {
    hide Ids, Apart, Kept, Twins, Dark;
    photos := Twins(ids, i, minEdge);
    TwinIds(ids, i, minEdge);
    var first, second := Blank("", true, minEdge), Blank(ids[i + 1], true, minEdge);
    NothingKept(photos[..i], minEdge);
    OneKept(photos[..i], first, minEdge);
    assert photos[..i + 1] == photos[..i] + [first];
    TwinKept(photos[..i + 1], first, second, minEdge);
    assert photos[..i + 2] == photos[..i + 1] + [second];
    RestRejected(photos, i + 2, minEdge);
    SamePictureIsNotApart(first, second);
  }

  lemma {:induction false} NothingKept(photos: seq<Photo>, minEdge: int)
    requires forall k | 0 <= k < |photos| :: !photos[k].present
    ensures Kept(photos, minEdge) == []
  {
    if photos != [] {
      NothingKept(photos[..|photos| - 1], minEdge);
    }
  }

  lemma GoodFace()
    ensures Quality(FACE) == []
  {
  }

  lemma OneKept(photos: seq<Photo>, first: Photo, minEdge: int)
    requires Kept(photos, minEdge) == [] && first == Blank("", true, minEdge)
    ensures Kept(photos + [first], minEdge) == [first]
  {
    hide Quality;
    GoodFace();
    assert (photos + [first])[..|photos|] == photos;
    assert Reasons(first, minEdge, []) == [];
  }

  lemma TwinKept(photos: seq<Photo>, first: Photo, second: Photo, minEdge: int)
    requires Kept(photos, minEdge) == [first] && first.id == "" && second == Blank(second.id, true, minEdge)
    ensures Kept(photos + [second], minEdge) == [first, second]
  {
    hide Quality, Hamming;
    GoodFace();
    assert (photos + [second])[..|photos|] == photos;
    assert DuplicateOf([first], second) == "";
    assert Reasons(second, minEdge, [first]) == [];
  }

  lemma KeptSkips(photos: seq<Photo>, p: Photo, minEdge: int)
    requires !p.present
    ensures Kept(photos + [p], minEdge) == Kept(photos, minEdge)
  {
    assert (photos + [p])[..|photos|] == photos;
  }

  lemma {:induction false} RestRejected(photos: seq<Photo>, n: nat, minEdge: int)
    requires n <= |photos| && forall k | n <= k < |photos| :: !photos[k].present
    ensures Kept(photos, minEdge) == Kept(photos[..n], minEdge)
    decreases |photos|
  {
    hide Kept;
    if n < |photos| {
      var m := |photos| - 1;
      RestRejected(photos[..m], n, minEdge);
      assert photos[..m][..n] == photos[..n];
      assert photos == photos[..m] + [photos[m]];
      KeptSkips(photos[..m], photos[m], minEdge);
    } else {
      assert photos[..n] == photos;
    }
  }

  /** A photo that was fit to keep and yet rejected has an earlier keeper within eight bits, and it is named. */
  lemma RejectedHasANearKeeper(photos: seq<Photo>, minEdge: int, n: nat)
    requires n < |photos| && Acceptable(photos[n], minEdge)
    requires Reasons(photos[n], minEdge, Kept(photos[..n], minEdge)) != []
    ensures exists k :: k in Kept(photos[..n], minEdge) && Distance(photos[n], k) <= DUPLICATE_DISTANCE
                && k.id != "" && Reasons(photos[n], minEdge, Kept(photos[..n], minEdge)) == [PerceptualDuplicate(k.id)]
  {
    hide Barred, Quality, Hamming, Kept;
    var keepers := Kept(photos[..n], minEdge);
    var i := FirstNear(keepers, photos[n]);
    assert i < |keepers| && keepers[i] in keepers;
    assert Reasons(photos[n], minEdge, keepers) == [PerceptualDuplicate(keepers[i].id)];
  }

  /** Curating the kept photos again keeps all of them. */
  lemma {:induction false} CuratingAgainKeepsAll(photos: seq<Photo>, minEdge: int)
    ensures Kept(Kept(photos, minEdge), minEdge) == Kept(photos, minEdge)
  {
    hide Reasons;
    if photos != [] {
      var n := |photos| - 1;
      var keepers := Kept(photos[..n], minEdge);
      CuratingAgainKeepsAll(photos[..n], minEdge);
      if Reasons(photos[n], minEdge, keepers) == [] {
        assert (keepers + [photos[n]])[..|keepers|] == keepers;
      }
    }
  }
}
