/** The de-duplicating append of save_id, over the lines of an id file. */
module IdStore {
  import opened Text

  predicate NoDuplicates(lines: seq<string>)
  {
    forall i, j :: 0 <= i < j < |lines| ==> lines[i] != lines[j]
  }

  /** save_id: the id's text is appended only when no line already equals it. */
  function SaveId(lines: seq<string>, id: int): (r: seq<string>)
    ensures IntToString(id) in r
    ensures |lines| <= |r| <= |lines| + 1 && r[..|lines|] == lines
    ensures r == lines <==> IntToString(id) in lines
    ensures forall x :: x in r ==> x in lines || x == IntToString(id)
  {
    if IntToString(id) in lines then lines else lines + [IntToString(id)]
  }

  /** Saving never introduces a duplicate line. */
  lemma SaveIdKeepsDistinct(lines: seq<string>, id: int)
    requires NoDuplicates(lines)
    ensures NoDuplicates(SaveId(lines, id))
  {
  }

  /** Saving the same id twice is the same as saving it once. */
  lemma SaveIdIdempotent(lines: seq<string>, id: int)
    ensures SaveId(SaveId(lines, id), id) == SaveId(lines, id)
  {
  }

  /** The file after saving a run of ids, in order. */
  function SaveIds(lines: seq<string>, ids: seq<int>): seq<string>
    decreases |ids|
  {
    if ids == [] then lines else SaveIds(SaveId(lines, ids[0]), ids[1..])
  }

  /** After any run of saves the file holds each id once: exactly the old
      lines plus the texts of the saved ids, with no duplicate. */
  lemma {:induction false} SaveIdsExact(lines: seq<string>, ids: seq<int>)
    requires NoDuplicates(lines)
    ensures NoDuplicates(SaveIds(lines, ids))
    ensures forall x :: x in SaveIds(lines, ids) <==> x in lines || exists k :: 0 <= k < |ids| && x == IntToString(ids[k])
    decreases |ids|
  {
    if ids != [] {
      var next := SaveId(lines, ids[0]);
      SaveIdKeepsDistinct(lines, ids[0]);
      SaveIdsExact(next, ids[1..]);
      forall x ensures x in SaveIds(lines, ids) <==> x in lines || exists k :: 0 <= k < |ids| && x == IntToString(ids[k]) {
        if exists k :: 0 <= k < |ids[1..]| && x == IntToString(ids[1..][k]) {
          var k :| 0 <= k < |ids[1..]| && x == IntToString(ids[1..][k]);
          assert x == IntToString(ids[k + 1]);
        }
        if exists k :: 0 <= k < |ids| && x == IntToString(ids[k]) {
          var k :| 0 <= k < |ids| && x == IntToString(ids[k]);
          if k > 0 {
            assert x == IntToString(ids[1..][k - 1]);
          }
        }
      }
    }
  }
}
