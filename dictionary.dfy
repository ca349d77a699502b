/** The event dictionary of loadDictionary: every distinct event text once, in order
    of first occurrence, and for every event the position of its text. */
module Dictionary {
  import opened Base
  import opened Bytes
  import opened Model

  /** A size or a distance stored into a uint16_t: reduced modulo 2^16. */
  function Wrap16(x: nat): u16
  {
    x % 0x1_0000
  }

  lemma Wrap16Small(x: nat)
    requires x < 0x1_0000
    ensures Wrap16(x) == x
  {
  }

  /** The dictionary and the eventType vector together. */
  datatype Table = Table(words: seq<string>, types: seq<u16>)

  /** The texts of the events, in log order. */
  function Names(es: seq<Event>): (ns: seq<string>)
    ensures |ns| == |es| && forall e :: 0 <= e < |es| ==> ns[e] == es[e].name
  {
    seq(|es|, e requires 0 <= e < |es| => es[e].name)
  }

  /** dictionary and eventType after loadDictionary has visited events 0..n-1: a
      text not yet in the dictionary is appended and its new position recorded;
      a known text records the position std::find returns. */
  function Intern(t: Table, es: seq<Event>, n: nat): (r: Table)
    requires n <= |es|
    ensures |r.types| == |t.types| + n && r.types[..|t.types|] == t.types
    ensures |t.words| <= |r.words| && r.words[..|t.words|] == t.words
  {
    if n == 0 then t
    else
      var p := Intern(t, es, n - 1);
      var x := es[n - 1].name;
      var i := Find(p.words, x);
      if i == |p.words| then Table(p.words + [x], p.types + [Wrap16(|p.words|)])
      else Table(p.words, p.types + [Wrap16(i)])
  }

  /** The dictionary grows by the event texts it did not hold, each once, in order of
      first occurrence: exactly the Firsts of the event texts. */
  lemma {:induction false} InternWords(t: Table, es: seq<Event>, n: nat)
    requires n <= |es|
    ensures Intern(t, es, n).words == t.words + Firsts(t.words, Names(es[..n]))
  {
    if n > 0 {
      InternWords(t, es, n - 1);
      var p := Intern(t, es, n - 1);
      var x := es[n - 1].name;
      var ns := Names(es[..n]);
      assert ns[..n - 1] == Names(es[..n - 1]);
      assert ns[n - 1] == x;
      var f := Firsts(t.words, Names(es[..n - 1]));
      FindAbsent(p.words, x);
      assert x in p.words <==> x in t.words || x in f;
    }
  }

  /** Entry e of the new eventType part is the position, modulo 2^16, at which the
      final dictionary first holds the text of event e. */
  lemma {:induction false} InternTypes(t: Table, es: seq<Event>, n: nat, e: nat)
    requires e < n <= |es|
    ensures Find(Intern(t, es, n).words, es[e].name) < |Intern(t, es, n).words|
    ensures Intern(t, es, n).types[|t.types| + e] == Wrap16(Find(Intern(t, es, n).words, es[e].name))
  {
    var p, r := Intern(t, es, n - 1), Intern(t, es, n);
    var x := es[n - 1].name;
    FindAbsent(p.words, x);
    if e < n - 1 {
      InternTypes(t, es, n - 1, e);
      var y := es[e].name;
      assert p.words[Find(p.words, y)] == y;
      FindAppend(p.words, x, y);
      assert r.types[|t.types| + e] == p.types[|t.types| + e];
    } else {
      FindAppend(p.words, x, x);
    }
  }

  /** With a dictionary free of repeats, the final one is free of repeats, holds
      exactly the prior texts and the event texts, and, while it has at most 2^16
      entries, eventType entry e looks up the text of event e. */
  lemma {:induction false} InternLooksUp(t: Table, es: seq<Event>, e: nat)
    requires NoDup(t.words) && e < |es|
    requires |Intern(t, es, |es|).words| <= 0x1_0000
    ensures NoDup(Intern(t, es, |es|).words)
    ensures Intern(t, es, |es|).types[|t.types| + e] < |Intern(t, es, |es|).words|
    ensures Intern(t, es, |es|).words[Intern(t, es, |es|).types[|t.types| + e]] == es[e].name
  {
    InternWords(t, es, |es|);
    assert es[..|es|] == es;
    FirstsSpec(t.words, Names(es));
    InternTypes(t, es, |es|, e);
    var r := Intern(t, es, |es|);
    var k := Find(r.words, es[e].name);
    assert r.types[|t.types| + e] == Wrap16(k);
    Wrap16Small(k);
  }

  /** A text is in the final dictionary exactly when it was there before or is the
      text of some event. */
  lemma {:induction false} InternMembers(t: Table, es: seq<Event>, w: string)
    ensures w in Intern(t, es, |es|).words <==> w in t.words || w in Names(es)
  {
    InternWords(t, es, |es|);
    assert es[..|es|] == es;
    FirstsSpec(t.words, Names(es));
  }

  /** The new dictionary entries appear in the order in which their texts first occur
      in the event log. */
  lemma {:induction false} InternOrder(t: Table, es: seq<Event>, i: nat, j: nat)
    requires |t.words| <= i < j < |Intern(t, es, |es|).words|
    ensures Find(Names(es), Intern(t, es, |es|).words[i]) < Find(Names(es), Intern(t, es, |es|).words[j])
  {
    InternWords(t, es, |es|);
    assert es[..|es|] == es;
    FirstsSpec(t.words, Names(es));
    var f := Firsts(t.words, Names(es));
    assert Intern(t, es, |es|).words[i] == f[i - |t.words|];
    assert Intern(t, es, |es|).words[j] == f[j - |t.words|];
  }

  /** Interning the same log a second time adds no texts and records the same
      positions again. */
  lemma {:induction false} InternTwice(t: Table, es: seq<Event>)
    ensures Intern(Intern(t, es, |es|), es, |es|).words == Intern(t, es, |es|).words
  {
    var r := Intern(t, es, |es|);
    InternWords(r, es, |es|);
    assert es[..|es|] == es;
    forall w | w in Names(es)
      ensures w in r.words
    {
      InternMembers(t, es, w);
    }
    FirstsAllKnown(r.words, Names(es));
  }

  /** On the second pass, eventType entry e repeats the entry of the first. */
  lemma {:induction false} InternTwiceTypes(t: Table, es: seq<Event>, e: nat)
    requires e < |es|
    ensures Intern(Intern(t, es, |es|), es, |es|).types[|t.types| + |es| + e] ==
      Intern(t, es, |es|).types[|t.types| + e]
  {
    var r := Intern(t, es, |es|);
    InternTwice(t, es);
    InternTypes(t, es, |es|, e);
    InternTypes(r, es, |es|, e);
  }

  /** The loop of loadDictionary. */
  method InternEvents(t0: Table, es: seq<Event>) returns (t: Table)
    ensures t == Intern(t0, es, |es|)
  {
    t := t0;
    var e := 0;
    while e < |es|
      invariant e <= |es| && t == Intern(t0, es, e)
      decreases |es| - e
    {
      var x := es[e].name;
      var i := Find(t.words, x);
      if i == |t.words| {
        t := Table(t.words + [x], t.types + [Wrap16(|t.words|)]);
      } else {
        t := Table(t.words, t.types + [Wrap16(i)]);
      }
      e := e + 1;
    }
  }
}
