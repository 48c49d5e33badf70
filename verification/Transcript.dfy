/** Meetings as text with its utterances, each on a line of its own between two offsets. */
module Transcript {
  import opened Basics

  /** Times are kept as the source prints them: `times` in the original line, `stamp` in the converted one. */
  datatype Utterance = Utterance(
    segment: string, speaker: string, times: string, stamp: string, body: string, charStart: nat, charEnd: nat)

  datatype Meeting = Meeting(text: string, utterances: seq<Utterance>)

  function Prefix(u: Utterance): string {
    u.speaker + " [" + u.times + "]: "
  }

  function Line(u: Utterance): string {
    Prefix(u) + u.body + "\n"
  }

  /** The utterances cut the whole text into consecutive, nonempty pieces. */
  ghost predicate Tiled(m: Meeting) {
    && (forall i :: 0 <= i < |m.utterances| ==> m.utterances[i].charStart < m.utterances[i].charEnd <= |m.text|)
    && (forall i, j :: 0 <= i < j < |m.utterances| && j == i + 1 ==>
         m.utterances[i].charEnd == m.utterances[j].charStart)
    && (if m.utterances == [] then m.text == ""
        else m.utterances[0].charStart == 0 && m.utterances[|m.utterances| - 1].charEnd == |m.text|)
  }

  ghost predicate LinesExact(m: Meeting) {
    && Tiled(m)
    && forall i :: 0 <= i < |m.utterances| ==>
         m.text[m.utterances[i].charStart..m.utterances[i].charEnd] == Line(m.utterances[i])
  }

  function Placed(text: string, row: Utterance): Utterance {
    row.(charStart := |text|, charEnd := |text| + |Line(row)|)
  }

  lemma TileOneMore(text: string, placed: seq<Utterance>, row: Utterance)
    requires Tiled(Meeting(text, placed))
    ensures Tiled(Meeting(text + Line(row), placed + [Placed(text, row)]))
  {
  }

  lemma EarlierSlice(text: string, more: string, i: nat, j: nat)
    requires i <= j <= |text|
    ensures (text + more)[i..j] == text[i..j]
  {
  }

  lemma PlaceOneMore(text: string, placed: seq<Utterance>, row: Utterance)
    requires LinesExact(Meeting(text, placed))
    ensures LinesExact(Meeting(text + Line(row), placed + [Placed(text, row)]))
  {
    var text', placed' := text + Line(row), placed + [Placed(text, row)];
    TileOneMore(text, placed, row);
    forall i | 0 <= i < |placed'| ensures text'[placed'[i].charStart..placed'[i].charEnd] == Line(placed'[i]) {
      if i < |placed| {
        EarlierSlice(text, Line(row), placed[i].charStart, placed[i].charEnd);
      }
    }
  }

  /** Laying out rows in order gives offsets that reproduce every line exactly; an empty meeting is refused. */
  method Assemble(rows: seq<Utterance>) returns (r: Result<Meeting, string>)
    ensures r.Ok? <==> rows != []
    ensures r.Ok? ==>
              && LinesExact(r.value) && |r.value.utterances| == |rows|
              && forall i :: 0 <= i < |rows| ==>
                   r.value.utterances[i] ==
                   rows[i].(charStart := r.value.utterances[i].charStart, charEnd := r.value.utterances[i].charEnd)
  {
    var text, placed: seq<Utterance> := "", [];
    for i := 0 to |rows|
      invariant |placed| == i && LinesExact(Meeting(text, placed))
      invariant forall k :: 0 <= k < i ==>
                  placed[k] == rows[k].(charStart := placed[k].charStart, charEnd := placed[k].charEnd)
    {
      PlaceOneMore(text, placed, rows[i]);
      placed := placed + [rows[i].(charStart := |text|, charEnd := |text| + |Line(rows[i])|)];
      text := text + Line(rows[i]);
    }
    if rows == [] {
      return Err("Empty AMI meeting");
    }
    return Ok(Meeting(text, placed));
  }

  lemma {:induction false} TiledOrdered(m: Meeting, i: nat, j: nat)
    requires Tiled(m) && i < j < |m.utterances|
    ensures m.utterances[i].charEnd <= m.utterances[j].charStart
  {
    if i + 1 < j {
      TiledOrdered(m, i, j - 1);
      assert m.utterances[j - 1].charEnd == m.utterances[j].charStart;
    }
  }
}
