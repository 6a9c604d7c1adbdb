/**
 * The conversion history both scripts keep in the session state under the
 * key "history": a list of display strings, created when the key is missing,
 * appended to after each successful conversion, shown as its last five
 * entries and emptied in place by "Clear History".
 */
module Ledger {
  import PyOps

  /** How many entries the history view and the report show (`history[-5:]`). */
  const Window: nat := 5

  /** What one press of "Convert Now" leads to: a warning, an error, or a result. */
  datatype Outcome = Rejected | Failed | Converted(result: real)

  /**
   * The text of one history entry, `f"{category} - {unit}: {value} ➡️ {result:.2f}"`;
   * the rendering of the two numbers is passed in as text.
   */
  function Entry(category: string, unit: string, valueText: string, resultText: string): (e: string)
    ensures category <= e
    ensures |e| == |category| + |unit| + |valueText| + |resultText| + 9
    ensures e[|category|..|category| + 3 + |unit| + 2] == " - " + unit + ": "
    ensures e[|category| + |unit| + 5..|e| - |resultText| - 4] == valueText
    ensures e[|e| - |resultText| - 4..] == " ➡️ " + resultText
  {
    category + " - " + unit + ": " + valueText + " ➡️ " + resultText
  }

  /** The session state, reduced to its "history" key. */
  class Session {
    /** Whether the session state holds a "history" key at all. */
    var present: bool
    var history: seq<string>

    /** A new session, before any script run: no "history" key yet. */
    constructor ()
      ensures !present && history == []
    {
      present := false;
      history := [];
    }

    /** `if "history" not in st.session_state: st.session_state.history = []`. */
    method Init()
      modifies this
      ensures present
      ensures history == if old(present) then old(history) else []
    {
      if !present {
        present := true;
        history := [];
      }
    }

    /** `st.session_state.history.append(entry)`; the key must already exist. */
    method Append(entry: string)
      requires present
      modifies this
      ensures present
      ensures history == old(history) + [entry]
      ensures |history| == |old(history)| + 1 && history[..|old(history)|] == old(history)
    {
      history := history + [entry];
    }

    /**
     * `st.session_state.history[-n:]`: the last n entries (all of them when
     * there are fewer), oldest first. As in Python, n = 0 gives the whole list.
     */
    function Recent(n: nat): (r: seq<string>)
      requires present
      reads this
      ensures |r| == if n == 0 then |history| else PyOps.Min(n, |history|)
      ensures forall i :: 0 <= i < |r| ==> r[i] == history[|history| - |r| + i]
    {
      PyOps.SliceFrom(history, -(n as int))
    }

    /** `st.session_state.history.clear()`: empties the list, which stays in the session. */
    method Clear()
      requires present
      modifies this
      ensures present && history == []
    {
      history := [];
    }
  }

  /**
   * Appending slides the window: a full window loses its oldest entry, and
   * the new entry is always the last one shown.
   */
  lemma {:induction false} RecentAfterAppend(before: seq<string>, entry: string, n: nat)
    requires n > 0
    ensures PyOps.SliceFrom(before + [entry], -(n as int)) ==
            (if |before| < n then before else before[|before| - n + 1..]) + [entry]
  {
    PyOps.LastAfterAppend(before, entry, n);
    if n > 1 {
      var q := PyOps.SliceFrom(before, -(n as int - 1));
      assert q == before[|before| - |q|..];
    }
  }

  /** After seven appends to an empty history the view holds entries three to seven. */
  method SevenAppendsThenClear(e: seq<string>)
    requires |e| == 7
  {
    var s := new Session();
    s.Init();
    s.Append(e[0]); s.Append(e[1]); s.Append(e[2]); s.Append(e[3]);
    s.Append(e[4]); s.Append(e[5]); s.Append(e[6]);
    assert s.history == e;
    assert s.Recent(Window) == e[2..];
    s.Clear();
    assert s.Recent(Window) == [];
    s.Clear();
    assert s.Recent(Window) == [];
  }
}
