/**
 * The bootstrap page served for the root target: an HTML document whose head
 * holds one script element per registered artifact name, in registry order,
 * with each name inserted verbatim. `ParsePage` reads such a page back and is
 * the independent partner of `Page`.
 */
module Bootstrap {
  import opened Wrappers
  import opened Text

  const PageHead: string := "<!DOCTYPE html><html><head>"
  const PageTail: string := "</head><body></body></html>"
  const TagOpen: string := "<script type=\"text/javascript\" src=\""
  const TagClose: string := "\"></script>"

  /** The script element that loads one artifact. */
  function ScriptTag(name: string): string
  {
    TagOpen + name + TagClose
  }

  /** A name is inserted verbatim: it sits, unchanged and unescaped, between the fixed opening and closing markup. */
  lemma ScriptTagVerbatim(name: string)
    ensures |ScriptTag(name)| == |TagOpen| + |name| + |TagClose|
    ensures ScriptTag(name)[..|TagOpen|] == TagOpen
    ensures ScriptTag(name)[|TagOpen|..|TagOpen| + |name|] == name
    ensures ScriptTag(name)[|TagOpen| + |name|..] == TagClose
  {
    SplitAt(TagOpen, name);
    SplitAt(TagOpen + name, TagClose);
  }

  /** The script elements of `names`, in order. */
  function ScriptTags(names: seq<string>): string
  {
    if names == [] then "" else ScriptTags(names[..|names| - 1]) + ScriptTag(names[|names| - 1])
  }

  /** The whole root document for the registry `names`. */
  function Page(names: seq<string>): string
  {
    PageHead + ScriptTags(names) + PageTail
  }

  /**
   * The root document starts with the doctype and the opening head, ends with
   * the closing head and an empty body, and holds exactly the registry's script
   * elements in between.
   */
  lemma PageFraming(names: seq<string>)
    ensures |Page(names)| == |PageHead| + |ScriptTags(names)| + |PageTail|
    ensures Page(names)[..|PageHead|] == PageHead
    ensures Page(names)[|PageHead|..|Page(names)| - |PageTail|] == ScriptTags(names)
    ensures Page(names)[|Page(names)| - |PageTail|..] == PageTail
  {
    SplitAt(PageHead, ScriptTags(names));
    SplitAt(PageHead + ScriptTags(names), PageTail);
  }

  /** No name contains a double quote, so each source attribute ends where its name does. */
  predicate QuoteFree(names: seq<string>)
  {
    forall i :: 0 <= i < |names| ==> '"' !in names[i]
  }

  /** Reads a run of script elements back into the names they reference. */
  function ParseTags(s: string): (r: Option<seq<string>>)
    decreases |s|
  {
    if s == [] then Some([])
    else if !StartsWith(s, TagOpen) then None
    else
      var rest := s[|TagOpen|..];
      match IndexOf(rest, '"')
      case None => None
      case Some(k) =>
        var after := rest[k..];
        if !StartsWith(after, TagClose) then None
        else
          match ParseTags(after[|TagClose|..])
          case None => None
          case Some(more) => Some([rest[..k]] + more)
  }

  /** Reads a whole root document back into the names it loads, in order. */
  function ParsePage(s: string): Option<seq<string>>
  {
    if |s| < |PageHead| + |PageTail| || !StartsWith(s, PageHead) || s[|s| - |PageTail|..] != PageTail then None
    else ParseTags(s[|PageHead|..|s| - |PageTail|])
  }

  /** The script elements of a concatenation are the concatenation of the script elements. */
  lemma {:induction false} ScriptTagsAppend(a: seq<string>, b: seq<string>)
    ensures ScriptTags(a + b) == ScriptTags(a) + ScriptTags(b)
    decreases |b|
  {
    if b == [] {
      assert a + b == a;
    } else {
      var b', last := b[..|b| - 1], b[|b| - 1];
      assert (a + b)[..|a + b| - 1] == a + b';
      assert (a + b)[|a + b| - 1] == last;
      ScriptTagsAppend(a, b');
      calc {
        ScriptTags(a + b);
        ScriptTags(a + b') + ScriptTag(last);
        ScriptTags(a) + ScriptTags(b') + ScriptTag(last);
        { AppendAssoc(ScriptTags(a), ScriptTags(b'), ScriptTag(last)); }
        ScriptTags(a) + (ScriptTags(b') + ScriptTag(last));
        ScriptTags(a) + ScriptTags(b);
      }
    }
  }

  /** One more name of a registry adds its element after those of the names before it. */
  lemma ScriptTagsPrefix(names: seq<string>, i: nat)
    requires i < |names|
    ensures ScriptTags(names[..i + 1]) == ScriptTags(names[..i]) + ScriptTag(names[i])
  {
    assert names[..i + 1][..i] == names[..i];
  }

  /**
   * The element of the `i`-th name stands in the page after the elements of
   * all earlier names and before those of all later ones.
   */
  lemma PageLayout(names: seq<string>, i: nat)
    requires i < |names|
    ensures Page(names) == PageHead + ScriptTags(names[..i]) + ScriptTag(names[i]) + ScriptTags(names[i + 1..]) + PageTail
  {
    var before, after := ScriptTags(names[..i]), ScriptTags(names[i + 1..]);
    var tag := ScriptTag(names[i]);
    assert names == names[..i + 1] + names[i + 1..];
    ScriptTagsAppend(names[..i + 1], names[i + 1..]);
    ScriptTagsPrefix(names, i);
    AppendAssoc(PageHead, before + tag, after);
    AppendAssoc(PageHead, before, tag);
  }

  /** Unfolds the script elements from the front, the order a reader meets them in. */
  lemma ScriptTagsCons(name: string, names: seq<string>)
    ensures ScriptTags([name] + names) == ScriptTag(name) + ScriptTags(names)
  {
    ScriptTagsAppend([name], names);
    assert [name][..0] == [];
    EmptyAppend(ScriptTag(name));
  }

  /** One script element of a quote-free name, followed by anything, reads back as that name first. */
  lemma ParseTagsStep(name: string, tail: string)
    requires '"' !in name
    ensures ParseTags(ScriptTag(name) + tail) == match ParseTags(tail)
                                                case None => None
                                                case Some(more) => Some([name] + more)
  {
    var rest := name + (TagClose + tail);
    AppendAssoc(TagOpen, name, TagClose);
    AppendAssoc(TagOpen + name, TagClose, tail);
    AppendAssoc(TagOpen, name, TagClose + tail);
    assert ScriptTag(name) + tail == TagOpen + rest;
    SplitAt(TagOpen, rest);
    assert TagClose[0] == '"';
    IndexOfBoundary(name, TagClose + tail, '"');
    SplitAt(name, TagClose + tail);
    SplitAt(TagClose, tail);
  }

  /** Reading the script elements of quote-free names gives back exactly those names, in order. */
  lemma {:induction false} ParseTagsRoundTrip(names: seq<string>)
    requires QuoteFree(names)
    ensures ParseTags(ScriptTags(names)) == Some(names)
    decreases |names|
  {
    if names != [] {
      var name, more := names[0], names[1..];
      assert names == [name] + more;
      ScriptTagsCons(name, more);
      assert '"' !in name;
      ParseTagsStep(name, ScriptTags(more));
      assert QuoteFree(more) by {
        forall i | 0 <= i < |more| ensures '"' !in more[i] {
          assert more[i] == names[i + 1];
        }
      }
      ParseTagsRoundTrip(more);
    }
  }

  /** The root document of quote-free names loads exactly those names, once each, in order. */
  lemma PageRoundTrip(names: seq<string>)
    requires QuoteFree(names)
    ensures ParsePage(Page(names)) == Some(names)
  {
    var s := Page(names);
    var tags := ScriptTags(names);
    assert s[..|PageHead|] == PageHead;
    assert s[|s| - |PageTail|..] == PageTail;
    assert s[|PageHead|..|s| - |PageTail|] == tags;
    ParseTagsRoundTrip(names);
  }

  /** Regrouping of the forged name's element into two elements, for arbitrary markup strings. */
  lemma Regroup(open: string, close: string, x: string, y: string)
    ensures open + (x + close + open + y) + close == (open + x + close) + (open + y + close)
  {
  }

  /**
   * Because names are inserted without escaping, a name holding a quote can
   * forge further script elements: the one-entry registry below, whose name is
   * `a"></script><script type="text/javascript" src="b`, yields the same
   * document as the two-entry registry ["a", "b"].
   */
  lemma VerbatimNamesForgeTags()
    ensures Page(["a" + TagClose + TagOpen + "b"]) == Page(["a", "b"])
  {
    var forged := "a" + TagClose + TagOpen + "b";
    assert [forged][..0] == [];
    assert ["a", "b"][..1] == ["a"];
    assert ["a"][..0] == [];
    calc {
      ScriptTags([forged]);
      ScriptTag(forged);
      TagOpen + ("a" + TagClose + TagOpen + "b") + TagClose;
      { Regroup(TagOpen, TagClose, "a", "b"); }
      (TagOpen + "a" + TagClose) + (TagOpen + "b" + TagClose);
      ScriptTag("a") + ScriptTag("b");
      ScriptTags(["a"]) + ScriptTag("b");
      ScriptTags(["a", "b"]);
    }
  }
}
