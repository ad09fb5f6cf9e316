/** Lists of rejected rows, of any kind, and the row numbers in them. */
module RowNumbers {
  predicate HasRow<T>(rejected: seq<T>, rowOf: T -> nat, row: nat) {
    exists k :: 0 <= k < |rejected| && rowOf(rejected[k]) == row
  }

  lemma HasRowNext<T>(before: seq<T>, last: T, rowOf: T -> nat, row: nat)
    ensures HasRow(before + [last], rowOf, row) <==> HasRow(before, rowOf, row) || rowOf(last) == row
  {
    var t := before + [last];
    if HasRow(before, rowOf, row) {
      var k :| 0 <= k < |before| && rowOf(before[k]) == row;
      assert rowOf(t[k]) == row;
    }
    if rowOf(last) == row { assert rowOf(t[|before|]) == row; }
    if HasRow(t, rowOf, row) {
      var k :| 0 <= k < |t| && rowOf(t[k]) == row;
      assert k < |before| ==> rowOf(before[k]) == row;
    }
  }
}
