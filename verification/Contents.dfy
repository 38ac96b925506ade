/** What a clipboard holds, in every format shared (`geserdesk-proto/src/clipboard.rs`), and what
    a size limit lets through of it (`geserdesk-clipboard/src/lib.rs`). */
module Contents {
  import opened Wrappers
  import opened Framing

  datatype Mime = Text | Html | Image | Files | Unknown(name: string)

  datatype Item = Item(mime: Mime, data: seq<byte>)

  datatype Content = Content(items: seq<Item>) {

    function Find(mime: Mime): Option<seq<byte>> {
      Lookup(items, mime)
    }

    /** Nothing a clipboard here could hold. Whether bytes are valid text or a valid manifest is
        the codec's business and not part of this model. */
    predicate IsEmpty() {
      Find(Text).None? && Find(Html).None? && Find(Image).None? && Find(Files).None?
    }

    function DataLen(): nat {
      TotalLen(items)
    }

    function WithoutHtml(): Content {
      Content(Dropped(items, Html))
    }

    function TextOnly(): Content {
      match Find(Text)
      case None => Content([])
      case Some(data) => if data == [] then Content([]) else Content([Item(Text, data)])
    }
  }

  function Lookup(items: seq<Item>, mime: Mime): Option<seq<byte>> {
    if items == [] then None
    else if items[0].mime == mime then Some(items[0].data)
    else Lookup(items[1..], mime)
  }

  function TotalLen(items: seq<Item>): nat {
    if items == [] then 0 else |items[0].data| + TotalLen(items[1..])
  }

  function Dropped(items: seq<Item>, mime: Mime): seq<Item> {
    if items == [] then []
    else (if items[0].mime == mime then [] else [items[0]]) + Dropped(items[1..], mime)
  }

  /** All of it, or without its HTML, or just its text, or nothing. */
  function Fit(c: Content, maxBytes: nat): Option<Content> {
    if !c.IsEmpty() && c.DataLen() <= maxBytes then Some(c)
    else if !c.WithoutHtml().IsEmpty() && c.WithoutHtml().DataLen() <= maxBytes then Some(c.WithoutHtml())
    else if !c.TextOnly().IsEmpty() && c.TextOnly().DataLen() <= maxBytes then Some(c.TextOnly())
    else None
  }

  /** Dropping a format never makes a content larger, and leaves every other format as it was. */
  lemma {:induction false} DroppedKeepsTheRest(items: seq<Item>, mime: Mime)
    ensures TotalLen(Dropped(items, mime)) <= TotalLen(items)
    ensures Lookup(Dropped(items, mime), mime) == None
    ensures forall m | m != mime :: Lookup(Dropped(items, mime), m) == Lookup(items, m)
  {
    if items != [] {
      var rest := Dropped(items[1..], mime);
      DroppedKeepsTheRest(items[1..], mime);
      if items[0].mime == mime {
        assert [] + rest == rest;
      } else {
        assert ([items[0]] + rest)[1..] == rest;
      }
    }
  }

  lemma {:induction false} LookupIsCounted(items: seq<Item>, mime: Mime)
    ensures Lookup(items, mime).Some? ==> |Lookup(items, mime).value| <= TotalLen(items)
  {
    if items != [] {
      LookupIsCounted(items[1..], mime);
    }
  }

  /** There is an item in a format a clipboard here can hold. */
  predicate HoldsSomething(c: Content) {
    exists item | item in c.items :: !item.mime.Unknown?
  }

  lemma {:induction false} LookupFinds(items: seq<Item>, mime: Mime)
    ensures Lookup(items, mime).Some? <==> exists item | item in items :: item.mime == mime
  {
    if items != [] {
      LookupFinds(items[1..], mime);
      assert items == [items[0]] + items[1..];
    }
  }

  lemma EmptyHoldsNothing(c: Content)
    ensures c.IsEmpty() <==> !HoldsSomething(c)
  {
    LookupFinds(c.items, Text);
    LookupFinds(c.items, Html);
    LookupFinds(c.items, Image);
    LookupFinds(c.items, Files);
  }

  predicate Passes(c: Content, maxBytes: nat) {
    HoldsSomething(c) && c.DataLen() <= maxBytes
  }

  /** What is let through is the whole content, or else what is left of it without its HTML, or else its
      text: the first of these that holds something and is within the limit; nothing exactly if none is. */
  lemma FitIsTheMostThatPasses(c: Content, maxBytes: nat)
    ensures match Fit(c, maxBytes)
      case Some(f) =>
        && Passes(f, maxBytes)
        && (f != c ==> !Passes(c, maxBytes))
        && (f != c && f != c.WithoutHtml() ==> !Passes(c.WithoutHtml(), maxBytes) && f == c.TextOnly())
      case None => !Passes(c, maxBytes) && !Passes(c.WithoutHtml(), maxBytes) && !Passes(c.TextOnly(), maxBytes)
  {
    EmptyHoldsNothing(c);
    EmptyHoldsNothing(c.WithoutHtml());
    EmptyHoldsNothing(c.TextOnly());
  }

  /** The text is what a limit cuts last: whatever is let through holds the text as it was; it is
      within the limit; and nothing is let through only where the text alone would not fit. */
  lemma FitKeepsTheText(c: Content, maxBytes: nat)
    ensures match Fit(c, maxBytes)
      case Some(f) => !f.IsEmpty() && f.DataLen() <= maxBytes
        && (c.Find(Text) != Some([]) ==> f.Find(Text) == c.Find(Text))
        && (f.Find(Image) == c.Find(Image) || f.Find(Image) == None)
      case None => c.Find(Text).Some? ==> c.Find(Text).value == [] || |c.Find(Text).value| > maxBytes
  {
    DroppedKeepsTheRest(c.items, Html);
    LookupIsCounted(c.items, Text);
    var t := c.TextOnly();
    if t.items != [] {
      assert t.items == [Item(Text, c.Find(Text).value)] && t.items[1..] == [];
      assert TotalLen(t.items) == |c.Find(Text).value|;
      assert Lookup(t.items, Image) == Lookup([], Image);
    }
  }
}
