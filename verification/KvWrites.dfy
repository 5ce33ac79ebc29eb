/** What a list of writes on one key leaves there: the value of the last put, followed by the values of
    the appends after it; or all the appends, if there was no put. */
module KvWrites {
  datatype Write = Putting(value: string) | Appending(value: string)

  function Joined(ws: seq<Write>): string {
    if ws == [] then "" else ws[0].value + Joined(ws[1..])
  }

  predicate NoPut(ws: seq<Write>) {
    forall i: nat :: i < |ws| ==> ws[i].Appending?
  }

  predicate IsLastPut(ws: seq<Write>, p: nat) {
    p < |ws| && ws[p].Putting? && forall i: nat :: p < i < |ws| ==> ws[i].Appending?
  }

  function Text(ws: seq<Write>): (r: string)
    ensures NoPut(ws) ==> r == Joined(ws)
    ensures forall p: nat :: IsLastPut(ws, p) ==> r == ws[p].value + Joined(ws[p + 1..])
  {
    if ws == [] then ""
    else if NoPut(ws[1..]) then Joined(ws)
    else
      assert forall p: nat :: IsLastPut(ws, p) ==> p > 0 && IsLastPut(ws[1..], p - 1) && ws[1..][p..] == ws[p + 1..];
      Text(ws[1..])
  }

  lemma {:induction false} JoinedPush(ws: seq<Write>, w: Write)
    ensures Joined(ws + [w]) == Joined(ws) + w.value
  {
    if ws == [] {
      assert [w][1..] == [];
    } else {
      JoinedPush(ws[1..], w);
      assert (ws + [w])[1..] == ws[1..] + [w];
    }
  }

  /** A put replaces the value, an append is added at its end. */
  lemma {:induction false} TextPush(ws: seq<Write>, w: Write)
    ensures Text(ws + [w]) == if w.Putting? then w.value else Text(ws) + w.value
  {
    var more := ws + [w];
    if w.Putting? {
      assert IsLastPut(more, |ws|);
      assert more[|ws| + 1..] == [];
    } else if NoPut(ws) {
      assert NoPut(more);
      JoinedPush(ws, w);
    } else {
      var p := LastPutOf(ws);
      assert IsLastPut(more, p);
      assert more[p + 1..] == ws[p + 1..] + [w];
      JoinedPush(ws[p + 1..], w);
    }
  }

  lemma {:induction false} LastPutOf(ws: seq<Write>) returns (p: nat)
    requires !NoPut(ws)
    ensures IsLastPut(ws, p)
  {
    var front := ws[..|ws| - 1];
    if ws[|ws| - 1].Putting? {
      p := |ws| - 1;
    } else {
      assert !NoPut(front);
      p := LastPutOf(front);
    }
  }
}
