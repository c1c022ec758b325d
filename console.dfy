/** The console as the program sees it: a current text attribute, set by
    `SetConsoleTextAttribute`, and the characters written so far, each in
    the attribute that was current when it was written. */
module Console {
  import opened Global

  datatype Event = Event(ch: char, color: Word)

  datatype Term = Term(attr: Word, out: seq<Event>)

  /** Characters of `s`, all in colour `w`. */
  function Paint(s: string, w: Word): (r: seq<Event>)
    ensures |r| == |s|
    ensures forall i {:trigger r[i]} :: 0 <= i < |s| ==> r[i] == Event(s[i], w)
  {
    seq(|s|, i requires 0 <= i < |s| => Event(s[i], w))
  }

  /** The characters of a stretch of output, colours dropped. */
  function Text(evs: seq<Event>): (r: string)
    ensures |r| == |evs|
    ensures forall i :: 0 <= i < |evs| ==> r[i] == evs[i].ch
  {
    seq(|evs|, i requires 0 <= i < |evs| => evs[i].ch)
  }

  /** `SetConsoleTextAttribute(hConsole, w)`. */
  function SetAttr(t: Term, w: Word): Term {
    t.(attr := w)
  }

  /** `std::cout << s`: written in the current attribute. */
  function PutAll(t: Term, s: string): Term {
    t.(out := t.out + Paint(s, t.attr))
  }

  /** The loop `for (c : s) { SetConsoleTextAttribute(h, w); std::cout << c; }`. */
  function PutEach(t: Term, s: string, w: Word): (r: Term)
    ensures r.out == t.out + Paint(s, w)
    ensures r.attr == if s == [] then t.attr else w
    decreases |s|
  {
    if s == [] then t
    else
      var t1 := PutAll(SetAttr(t, w), s[..1]);
      var r := PutEach(t1, s[1..], w);
      PaintSplit(s, w);
      assert r.out == t.out + (Paint(s[..1], w) + Paint(s[1..], w));
      r
  }

  /** Painting a non-empty string is painting its first character, then
      the rest. */
  lemma PaintSplit(s: string, w: Word)
    requires s != []
    ensures Paint(s, w) == Paint(s[..1], w) + Paint(s[1..], w)
  {
    var l := Paint(s[..1], w) + Paint(s[1..], w);
    forall i | 0 <= i < |s|
      ensures l[i] == Paint(s, w)[i]
    {
      if i > 0 {
        assert l[i] == Paint(s[1..], w)[i - 1];
      }
    }
  }

  /** Writing two strings one after the other is writing their
      concatenation. */
  lemma PutAllAppend(t: Term, a: string, b: string)
    ensures PutAll(PutAll(t, a), b) == PutAll(t, a + b)
  {
    assert Paint(a + b, t.attr) == Paint(a, t.attr) + Paint(b, t.attr);
  }

  /** The process's console window. */
  class Screen {
    var attr: Word
    var out: seq<Event>

    constructor(attr: Word)
      ensures Snapshot() == Term(attr, [])
    {
      this.attr := attr;
      out := [];
    }

    function Snapshot(): Term
      reads this
    {
      Term(attr, out)
    }

    method SetTextAttribute(w: Word)
      modifies this
      ensures Snapshot() == SetAttr(old(Snapshot()), w)
    {
      attr := w;
    }

    method Write(s: string)
      modifies this
      ensures Snapshot() == PutAll(old(Snapshot()), s)
    {
      out := out + Paint(s, attr);
    }
  }
}
