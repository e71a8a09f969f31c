/**
 * `Meta.js.concatenate`: the client sources are folded into one text,
 * with `;\n` between a non-empty text so far and the next source.
 */
module MetaJs {

  const Separator: string := ";\n"

  /** One step of the reduce: the first non-empty text starts the output. */
  function Step(output: string, src: string): string {
    if |output| > 0 then output + Separator + src else src
  }

  /** The reduce over the sources, starting from the empty text. */
  function Concatenate(sources: seq<string>): string {
    if sources == [] then ""
    else Step(Concatenate(sources[..|sources| - 1]), sources[|sources| - 1])
  }

  /** The sources joined with the separator between each pair. */
  function Join(parts: seq<string>): (r: string)
    ensures parts != [] ==> |r| >= |parts[0]|
  {
    if parts == [] then ""
    else if |parts| == 1 then parts[0]
    else Join(parts[..|parts| - 1]) + Separator + parts[|parts| - 1]
  }

  /** The sources from the first non-empty one on. */
  function DropLeadingEmpty(sources: seq<string>): (r: seq<string>)
    ensures r != [] ==> r[0] != ""
    ensures |r| <= |sources|
  {
    if sources != [] && sources[0] == "" then DropLeadingEmpty(sources[1..]) else sources
  }

  predicate AllEmpty(sources: seq<string>) {
    forall i :: 0 <= i < |sources| ==> sources[i] == ""
  }

  /** What is dropped is a run of empty sources at the front, and nothing else. */
  lemma {:induction false} DropLeadingEmptyIsSuffix(sources: seq<string>)
    ensures var r := DropLeadingEmpty(sources);
      r == sources[|sources| - |r|..] && AllEmpty(sources[..|sources| - |r|])
  {
    if sources != [] && sources[0] == "" {
      var rest := sources[1..];
      DropLeadingEmptyIsSuffix(rest);
      var k := |rest| - |DropLeadingEmpty(rest)|;
      assert sources[k + 1..] == rest[k..];
      assert sources[..k + 1] == [sources[0]] + rest[..k];
    } else {
      assert sources[..0] == [];
    }
  }

  lemma {:induction false} ConcatenateEmpty(sources: seq<string>)
    ensures Concatenate(sources) == "" <==> AllEmpty(sources)
  {
    if sources != [] {
      var init := sources[..|sources| - 1];
      ConcatenateEmpty(init);
      if AllEmpty(sources) {
        assert AllEmpty(init);
      }
    }
  }

  lemma {:induction false} DropLeadingEmptySnoc(init: seq<string>, last: string)
    ensures AllEmpty(init) ==> DropLeadingEmpty(init + [last]) == DropLeadingEmpty([last])
    ensures !AllEmpty(init) ==> DropLeadingEmpty(init + [last]) == DropLeadingEmpty(init) + [last]
  {
    if init == [] {
      assert init + [last] == [last];
    } else if init[0] == "" {
      var rest := init[1..];
      assert (init + [last])[0] == "";
      assert (init + [last])[1..] == rest + [last];
      assert DropLeadingEmpty(init + [last]) == DropLeadingEmpty(rest + [last]);
      assert DropLeadingEmpty(init) == DropLeadingEmpty(rest);
      DropLeadingEmptySnoc(rest, last);
      assert AllEmpty(init) == AllEmpty(rest) by {
        assert forall i :: 0 <= i < |rest| ==> rest[i] == init[i + 1];
      }
    } else {
      assert (init + [last])[0] != "";
      assert DropLeadingEmpty(init + [last]) == init + [last];
      assert DropLeadingEmpty(init) == init;
      assert !AllEmpty(init);
    }
  }

  /**
   * The fold equals the join of the sources from the first non-empty one
   * on: empty sources before any text are skipped, later ones still add a
   * separator.
   */
  lemma {:induction false} ConcatenateIsJoin(sources: seq<string>)
    ensures Concatenate(sources) == Join(DropLeadingEmpty(sources))
  {
    if sources != [] {
      var init := sources[..|sources| - 1];
      var last := sources[|sources| - 1];
      assert sources == init + [last];
      ConcatenateIsJoin(init);
      ConcatenateEmpty(init);
      DropLeadingEmptySnoc(init, last);
      if AllEmpty(init) {
        if last == "" {
          assert DropLeadingEmpty([last]) == [];
        }
      } else {
        var d := DropLeadingEmpty(init);
        assert d != [];
        assert (d + [last])[..|d + [last]| - 1] == d;
      }
    }
  }

  lemma ConcatenateExamples()
    ensures Concatenate(["a", "b"]) == "a;\nb"
    ensures Concatenate(["", "a", "", "b"]) == "a;\n;\nb"
    ensures Concatenate(["", ""]) == ""
  {
    assert ["a", "b"][..1] == ["a"];
    assert ["", "a", "", "b"][..3] == ["", "a", ""];
    assert ["", "a", ""][..2] == ["", "a"];
    assert ["", "a"][..1] == [""];
    assert ["", ""][..1] == [""];
  }
}
