/** Point annotations of frames (src/fh_agent/evals/spatial_perception_dataset.py). */
module SpatialDataset {
  import opened Prelude

  type Point = (int, int)

  datatype Status = Usable | Uncertain | Exclude

  datatype Annotation = Annotation(
    frameId: string, evidenceId: string, status: Status, player: Option<Point>, sprites: seq<Point>)

  datatype AnnotationSequence = AnnotationSequence(sequenceId: string, frames: seq<Annotation>)

  datatype Dataset = Dataset(version: string, sequences: seq<AnnotationSequence>)

  /** All annotations, sequence by sequence. */
  function Flatten(sequences: seq<AnnotationSequence>): seq<Annotation> {
    if sequences == [] then [] else sequences[0].frames + Flatten(sequences[1..])
  }

  /** The validator `frame_ids_must_be_globally_unique`. */
  ghost predicate UniqueFrameIds(annotations: seq<Annotation>) {
    forall i, j :: 0 <= i < j < |annotations| ==> annotations[i].frameId != annotations[j].frameId
  }

  /** The dict comprehension `{a.frame_id: a for ...}`; a later entry replaces an earlier one. */
  function ById(annotations: seq<Annotation>): (m: map<string, Annotation>)
    ensures forall id :: id in m ==> m[id].frameId == id && m[id] in annotations
  {
    if annotations == [] then map[]
    else
      var last := annotations[|annotations| - 1];
      ById(annotations[..|annotations| - 1])[last.frameId := last]
  }

  /** With unique frame ids the dict holds exactly the listed annotations. */
  lemma {:induction false} ByIdLists(annotations: seq<Annotation>)
    requires UniqueFrameIds(annotations)
    ensures forall a :: a in annotations ==> a.frameId in ById(annotations) && ById(annotations)[a.frameId] == a
  {
    if annotations != [] {
      var n := |annotations| - 1;
      ByIdLists(annotations[..n]);
      assert annotations == annotations[..n] + [annotations[n]];
      forall a | a in annotations ensures a.frameId in ById(annotations) && ById(annotations)[a.frameId] == a {
        if a in annotations[..n] {
          var i :| 0 <= i < n && annotations[i] == a;
        }
      }
    }
  }

  /** An annotation without the order of its sprite points. */
  datatype Unordered = Unordered(frameId: string, evidenceId: string, status: Status, player: Option<Point>,
                                 sprites: multiset<Point>)

  ghost function Forget(a: Annotation): Unordered {
    Unordered(a.frameId, a.evidenceId, a.status, a.player, multiset(a.sprites))
  }

  lemma {:induction false} FlattenMembers(sequences: seq<AnnotationSequence>, a: Annotation)
    ensures a in Flatten(sequences) <==> exists s :: s in sequences && a in s.frames
  {
    if sequences != [] {
      FlattenMembers(sequences[1..], a);
      assert sequences == [sequences[0]] + sequences[1..];
    }
  }

  /** A frame id occurs at one place only. */
  lemma {:induction false} FlattenPlaces(sequences: seq<AnnotationSequence>, i: nat, j: nat, k: nat, l: nat)
    requires UniqueFrameIds(Flatten(sequences))
    requires i <= j < |sequences| && k < |sequences[i].frames| && l < |sequences[j].frames|
    requires sequences[i].frames[k].frameId == sequences[j].frames[l].frameId
    ensures i == j && k == l
  {
    var head, tail := sequences[0].frames, Flatten(sequences[1..]);
    assert Flatten(sequences)[|head|..] == tail;
    assert forall x :: 0 <= x < |head| ==> Flatten(sequences)[x] == head[x];
    forall x, y | 0 <= x < y < |tail| ensures tail[x].frameId != tail[y].frameId {
      assert Flatten(sequences)[|head| + x] == tail[x] && Flatten(sequences)[|head| + y] == tail[y];
    }
    forall x, y | 0 <= x < |head| && 0 <= y < |tail| ensures head[x].frameId != tail[y].frameId {
      assert Flatten(sequences)[|head| + y] == tail[y];
    }
    if i > 0 {
      FlattenPlaces(sequences[1..], i - 1, j - 1, k, l);
    } else if j > 0 {
      var b := sequences[j].frames[l];
      assert sequences[1..][j - 1] == sequences[j];
      FlattenMembers(sequences[1..], b);
      assert false;
    }
  }
}
