/** Stock types and small facts about sequences shared by the other modules. */
module Wrappers {

  datatype Option<+T> = None | Some(value: T)

  datatype Result<+T, +E> = Ok(value: T) | Err(error: E)

  /** Whether the answer of a shared store came back; if not, the operation may have run all the same. */
  datatype Reply = Heard | Unheard(ran: bool)

  predicate Ran(reply: Reply) {
    reply.Heard? || reply.ran
  }

  /** The elements of `s`, as a set. */
  function Elems<T>(s: seq<T>): set<T> {
    set x | x in s
  }

  ghost predicate NoDup<T>(s: seq<T>) {
    forall i, j :: 0 <= i < j < |s| ==> s[i] != s[j]
  }

  /** A sequence without repetitions has as many elements as its set; any other has more. */
  lemma {:induction false} ElemsCard<T>(s: seq<T>)
    ensures |Elems(s)| <= |s|
    ensures |Elems(s)| == |s| <==> NoDup(s)
  {
    if s == [] {
    } else {
      var p := s[..|s| - 1];
      var x := s[|s| - 1];
      assert s == p + [x];
      ElemsCard(p);
      assert Elems(s) == Elems(p) + {x};
      if x in p {
        assert Elems(s) == Elems(p);
        var i :| 0 <= i < |p| && p[i] == x;
        assert s[i] == s[|s| - 1];
      } else {
        assert NoDup(p) ==> NoDup(s);
        assert NoDup(s) ==> NoDup(p) by {
          if NoDup(s) {
            forall i, j | 0 <= i < j < |p| ensures p[i] != p[j] {
              assert s[i] != s[j];
            }
          }
        }
      }
    }
  }

  /** A subset that is as large as the whole is the whole. */
  lemma SubsetOfSameSize<T>(a: set<T>, b: set<T>)
    requires a <= b && |a| == |b|
    ensures a == b
  {
    if a != b {
      var x :| x in b && x !in a;
      assert a <= b - {x};
      SubsetCard(a, b - {x});
    }
  }

  lemma {:induction false} SubsetCard<T>(a: set<T>, b: set<T>)
    requires a <= b
    ensures |a| <= |b|
    decreases a
  {
    if a == {} {
    } else {
      var x :| x in a;
      SubsetCard(a - {x}, b - {x});
    }
  }
}
