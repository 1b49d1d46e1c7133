/**
 * "Generate PDF": the export refuses an empty cart, gives the chosen file
 * name a `.pdf` extension unless it already ends in one (in any letter
 * case), and offers the rendered document for download under that name.
 */
module Download {
  import opened Orders
  import opened Pdf
  import opened Wrappers

  const Extension: string := ".pdf"
  /** The file name the text box starts with. */
  const DefaultFilename: string := "spare_parts_order.pdf"

  /** Lower-casing of one character (ASCII letters only). */
  function Lower(c: char): (r: char)
    ensures 'A' <= c <= 'Z' ==> 'a' <= r <= 'z' && r as int - 'a' as int == c as int - 'A' as int
    ensures !('A' <= c <= 'Z') ==> r == c
  {
    if 'A' <= c <= 'Z' then (c as int - 'A' as int + 'a' as int) as char else c
  }

  function LowerString(s: string): (r: string)
    ensures |r| == |s|
    ensures forall i :: 0 <= i < |s| ==> r[i] == Lower(s[i])
  {
    seq(|s|, i requires 0 <= i < |s| => Lower(s[i]))
  }

  predicate EndsWith(s: string, suffix: string)
  {
    |suffix| <= |s| && s[|s| - |suffix|..] == suffix
  }

  /** `name.lower().endswith(".pdf")`. */
  predicate HasPdfSuffix(name: string)
  {
    EndsWith(LowerString(name), Extension)
  }

  lemma LowerAppend(a: string, b: string)
    ensures LowerString(a + b) == LowerString(a) + LowerString(b)
  {
    assert forall i :: 0 <= i < |a + b| ==> LowerString(a + b)[i] == (LowerString(a) + LowerString(b))[i] by {
      forall i | 0 <= i < |a + b|
        ensures LowerString(a + b)[i] == (LowerString(a) + LowerString(b))[i]
      {
        if i < |a| {
          assert (a + b)[i] == a[i];
        } else {
          assert (a + b)[i] == b[i - |a|];
        }
      }
    }
  }

  /**
   * The name the download is offered under: the typed name if it already
   * ends in `.pdf` in any letter case, otherwise the typed name with `.pdf`
   * appended. Either way the result ends in `.pdf`.
   */
  function PdfFilename(name: string): (r: string)
    ensures HasPdfSuffix(r)
    ensures HasPdfSuffix(name) ==> r == name
    ensures !HasPdfSuffix(name) ==> r == name + Extension
  {
    if HasPdfSuffix(name) then name
    else
      LowerAppend(name, Extension);
      assert LowerString(Extension) == Extension;
      var low := LowerString(name + Extension);
      assert low[|low| - |Extension|..] == LowerString(Extension);
      name + Extension
  }

  /** Normalising twice is normalising once. */
  lemma PdfFilenameIdempotent(name: string)
    ensures PdfFilename(PdfFilename(name)) == PdfFilename(name)
  {
  }

  /** The name the text box starts with is used as it is. */
  lemma DefaultFilenameKept()
    ensures PdfFilename(DefaultFilename) == DefaultFilename
  {
    var d := LowerString(DefaultFilename);
    assert d[|d| - 4..] == [d[17], d[18], d[19], d[20]];
  }

  /** The extension is recognised in any letter case. */
  lemma UpperCaseExtensionKept()
    ensures PdfFilename("order.PDF") == "order.PDF"
  {
    var u := LowerString("order.PDF");
    assert u[|u| - 4..] == [u[5], u[6], u[7], u[8]];
  }

  /** A name without the extension gains it. */
  lemma MissingExtensionAppended()
    ensures PdfFilename("order") == "order.pdf"
  {
    var b := LowerString("order");
    assert b[1] == 'r';
  }

  /** A name ending in "pdf" without the dot is not taken as having the extension. */
  lemma BarePdfEndingAppended()
    ensures PdfFilename("orderpdf") == "orderpdf.pdf"
  {
    var p := LowerString("orderpdf");
    assert p[4] == 'r';
  }

  /** Even the empty name gains the extension. */
  lemma EmptyNameAppended()
    ensures PdfFilename("") == ".pdf"
  {
  }

  /** What the download button offers. */
  datatype Offer = Offer(filename: string, document: seq<Command>)

  /**
   * The "Generate PDF" action: nothing is offered for an empty cart;
   * otherwise the document of the cart is offered under the normalised
   * file name.
   */
  method Export(cart: CartMap, filename: string, height: int) returns (r: Option<Offer>)
    ensures r.None? <==> cart == map[]
    ensures r.Some? ==> r.value.filename == PdfFilename(filename)
    ensures r.Some? ==> r.value.document == Draw(Layout(cart, height))
  {
    if cart == map[] {
      return None;
    }
    var name := filename;
    if !HasPdfSuffix(name) {
      name := name + Extension;
    }
    var document := GeneratePdf(cart, height);
    return Some(Offer(name, document));
  }
}
