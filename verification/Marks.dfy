/**
  A fact told from the steps of a run: each step may make it so, or end it.
 */
module Marks {

  datatype Mark = Mark(comes: bool, goes: bool)

  // Some step made it so and none since ended it, or it was so at first and none did.
  ghost predicate Stands(marks: seq<Mark>, first: bool) {
    || Stayed(marks)
    || (first && forall i :: 0 <= i < |marks| ==> !marks[i].goes)
  }

  ghost predicate Stayed(marks: seq<Mark>) {
    exists i :: 0 <= i < |marks| && marks[i].comes && forall j :: i < j < |marks| ==> !marks[j].goes
  }

  // Of a longer run: what the rest of it leaves of what its first step left.
  lemma {:induction false} StandsAfter(mark: Mark, rest: seq<Mark>, first: bool)
    ensures Stands([mark] + rest, first) <==> Stands(rest, mark.comes || (first && !mark.goes))
  {
    var marks := [mark] + rest;
    forall j | 0 <= j < |rest| ensures rest[j] == marks[j + 1] {
    }
    StayedAfter(mark, rest);
    assert marks[0] == mark && forall i :: 0 < i < |marks| ==> marks[i] == rest[i - 1];
  }

  lemma {:induction false} StayedAfter(mark: Mark, rest: seq<Mark>)
    ensures Stayed([mark] + rest) <==> Stayed(rest) || (mark.comes && forall i :: 0 <= i < |rest| ==> !rest[i].goes)
  {
    var marks := [mark] + rest;
    if i :| 0 <= i < |marks| && marks[i].comes && forall j :: i < j < |marks| ==> !marks[j].goes {
      forall j | 0 <= j < |rest| && i - 1 < j ensures !rest[j].goes {
        assert rest[j] == marks[j + 1];
      }
      assert i > 0 ==> rest[i - 1] == marks[i];
    }
    if i :| 0 <= i < |rest| && rest[i].comes && forall j :: i < j < |rest| ==> !rest[j].goes {
      assert marks[i + 1] == rest[i];
      assert forall j :: i + 1 < j < |marks| ==> marks[j] == rest[j - 1];
    }
    if mark.comes && forall i :: 0 <= i < |rest| ==> !rest[i].goes {
      assert marks[0].comes;
      assert forall j :: 0 < j < |marks| ==> marks[j] == rest[j - 1];
    }
  }

  // Of a run one step longer: the last step makes it so, or does not end what stayed.
  lemma {:induction false} StayedThen(before: seq<Mark>, last: Mark)
    ensures Stayed(before + [last]) <==> last.comes || (Stayed(before) && !last.goes)
  {
    var marks := before + [last];
    assert marks[|before|] == last && forall i :: 0 <= i < |before| ==> marks[i] == before[i];
    if i :| 0 <= i < |before| && before[i].comes && forall j :: i < j < |before| ==> !before[j].goes {
      assert marks[i].comes;
    }
    if i :| 0 <= i < |marks| && marks[i].comes && forall j :: i < j < |marks| ==> !marks[j].goes {
      assert i < |before| ==> before[i].comes && !last.goes;
    }
  }
}
