/**
 * The activity record (src/types/activity.ts): one card of the feed. The kinds
 * share one record; the fields that only some kinds carry are optional.
 */
module Activities {
  import opened Wrappers

  /**
   * The `type` field. JSON may carry a string outside the six known kinds; it is kept as
   * `OtherKind`, which `ParseKind` builds only for such a string, so two kinds are equal
   * exactly when their strings are (`ParseKindInjective`).
   */
  datatype ActivityType = Article | Tidal | TidalVideo | Video | AppLink | Game | OtherKind(name: string)

  /** The JSON string of a kind. */
  function TypeName(k: ActivityType): string {
    match k
    case Article => "article"
    case Tidal => "tidal"
    case TidalVideo => "tidal-video"
    case Video => "video"
    case AppLink => "app-link"
    case Game => "game"
    case OtherKind(name) => name
  }

  const KNOWN_TYPE_NAMES: set<string> := {"article", "tidal", "tidal-video", "video", "app-link", "game"}

  /** A kind as the JSON can carry it: an `OtherKind` never holds one of the six names. */
  predicate WellFormedKind(k: ActivityType) {
    k.OtherKind? ==> k.name !in KNOWN_TYPE_NAMES
  }

  /** The kind a JSON `type` string denotes. */
  function ParseKind(name: string): (k: ActivityType)
    ensures WellFormedKind(k)
    ensures k.OtherKind? <==> name !in KNOWN_TYPE_NAMES
    ensures TypeName(k) == name
  {
    if name == "article" then Article
    else if name == "tidal" then Tidal
    else if name == "tidal-video" then TidalVideo
    else if name == "video" then Video
    else if name == "app-link" then AppLink
    else if name == "game" then Game
    else OtherKind(name)
  }

  /** Reading back the string of a well-formed kind gives the kind. */
  lemma ParseTypeName(k: ActivityType)
    requires WellFormedKind(k)
    ensures ParseKind(TypeName(k)) == k
  {
    match k
    case OtherKind(name) =>
      assert name != "article" && name != "tidal" && name != "tidal-video";
      assert name != "video" && name != "app-link" && name != "game";
    case _ =>
  }

  /** Kinds compare as the source compares their strings. */
  lemma ParseKindInjective(a: string, b: string)
    ensures ParseKind(a) == ParseKind(b) <==> a == b
  {
    if ParseKind(a) == ParseKind(b) {
      assert a == TypeName(ParseKind(a));
    }
  }

  datatype Platform = Nebula | YouTube

  datatype Activity = Activity(
    id: string,
    kind: ActivityType,
    title: string,
    description: Option<string>,
    imageUrl: Option<string>,
    source: string,
    tags: Option<seq<string>>,
    addedAt: int,
    url: Option<string>,
    tidalUrl: Option<string>,
    platform: Option<Platform>,
    embedId: Option<string>)

  /** A record with only the fields every kind has. */
  function Basic(id: string, kind: ActivityType, title: string, source: string, addedAt: int): Activity {
    Activity(id, kind, title, None, None, source, None, addedAt, None, None, None, None)
  }

  predicate AllOfKind(s: seq<Activity>, k: ActivityType) {
    forall i :: 0 <= i < |s| ==> s[i].kind == k
  }

  /** The items of kind `k`, in their original order (one bucket of a group-by-type). */
  function OfKind(s: seq<Activity>, k: ActivityType): (r: seq<Activity>)
    ensures |r| <= |s|
    ensures AllOfKind(r, k)
  {
    if s == [] then [] else (if s[0].kind == k then [s[0]] else []) + OfKind(s[1..], k)
  }

  lemma {:induction false} OfKindAppend(a: seq<Activity>, b: seq<Activity>, k: ActivityType)
    ensures OfKind(a + b, k) == OfKind(a, k) + OfKind(b, k)
  {
    if a == [] {
      assert a + b == b;
    } else {
      var head := if a[0].kind == k then [a[0]] else [];
      assert (a + b)[0] == a[0];
      assert (a + b)[1..] == a[1..] + b;
      calc {
        OfKind(a + b, k);
        head + OfKind((a + b)[1..], k);
        head + OfKind(a[1..] + b, k);
        { OfKindAppend(a[1..], b, k); }
        head + (OfKind(a[1..], k) + OfKind(b, k));
        (head + OfKind(a[1..], k)) + OfKind(b, k);
        OfKind(a, k) + OfKind(b, k);
      }
    }
  }

  /** The bucket of kind `k` holds every item of that kind, as often as the input does, and nothing else. */
  lemma {:induction false} OfKindMultiplicity(s: seq<Activity>, k: ActivityType, x: Activity)
    ensures multiset(OfKind(s, k))[x] == if x.kind == k then multiset(s)[x] else 0
  {
    if s != [] {
      var head := if s[0].kind == k then [s[0]] else [];
      OfKindMultiplicity(s[1..], k, x);
      assert s == [s[0]] + s[1..];
      assert multiset(s) == multiset([s[0]]) + multiset(s[1..]);
      assert multiset(OfKind(s, k)) == multiset(head) + multiset(OfKind(s[1..], k));
    }
  }

  lemma OfKindSubMultiset(s: seq<Activity>, k: ActivityType)
    ensures multiset(OfKind(s, k)) <= multiset(s)
  {
    forall x ensures multiset(OfKind(s, k))[x] <= multiset(s)[x] {
      OfKindMultiplicity(s, k, x);
    }
  }

  /** Reordering the items does not change how many of each kind there are. */
  lemma OfKindPermutation(a: seq<Activity>, b: seq<Activity>, k: ActivityType)
    requires multiset(a) == multiset(b)
    ensures multiset(OfKind(a, k)) == multiset(OfKind(b, k))
    ensures |OfKind(a, k)| == |OfKind(b, k)|
  {
    forall x ensures multiset(OfKind(a, k))[x] == multiset(OfKind(b, k))[x] {
      OfKindMultiplicity(a, k, x);
      OfKindMultiplicity(b, k, x);
    }
    assert multiset(OfKind(a, k)) == multiset(OfKind(b, k));
    assert |multiset(OfKind(a, k))| == |OfKind(a, k)|;
  }

  /** On a sequence of one kind, the bucket of that kind is everything and every other bucket is empty. */
  lemma {:induction false} OfKindUniform(s: seq<Activity>, k: ActivityType, k': ActivityType)
    requires AllOfKind(s, k)
    ensures OfKind(s, k') == if k' == k then s else []
  {
    if s != [] {
      OfKindUniform(s[1..], k, k');
    }
  }

  /** Appending items of one kind adds them to that kind's bucket and to no other. */
  lemma OfKindAppendUniform(a: seq<Activity>, b: seq<Activity>, kb: ActivityType, k: ActivityType)
    requires AllOfKind(b, kb)
    ensures OfKind(a + b, k) == OfKind(a, k) + (if k == kb then b else [])
  {
    OfKindAppend(a, b, k);
    OfKindUniform(b, kb, k);
  }

  /** A sub-multiset of a sequence of one kind is of that kind. */
  lemma SubMultisetOfKind(a: seq<Activity>, b: seq<Activity>, k: ActivityType)
    requires AllOfKind(b, k) && multiset(a) <= multiset(b)
    ensures AllOfKind(a, k)
  {
    forall i | 0 <= i < |a| ensures a[i].kind == k {
      assert a[i] in multiset(a);
      assert a[i] in multiset(b);
      var j :| 0 <= j < |b| && b[j] == a[i];
    }
  }
}
