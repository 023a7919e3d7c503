/** The entry point: extract the items, and render the page only when the
    extracted list is non-empty. */
module Gallery {

  import opened Extractor
  import opened PageTemplate
  import Renderer

  /** The end of a run: the page that is written to the output file, or the
      failure notice when extraction gave no items. */
  datatype Outcome = PageWritten(html: string) | ExtractionFailed

  /** One run on the loaded input. `delay` is Python's text for the float
      `i * 0.05`. A page is produced exactly when the input loaded, every
      element of every list has both fields and there is at least one
      element; an input that is well formed but has no elements is reported
      as a failure like a broken one. */
  method RunGallery(t: Template, src: Source, delay: nat -> string) returns (outcome: Outcome)
    ensures outcome.PageWritten? <==> src.Loaded? && WellFormed(src.doc) && TotalListLength(src.doc) > 0
    ensures outcome.PageWritten? ==> outcome.html == Renderer.Page(t, Extracted(src), delay)
  {
    var items := ExtractItems(src);
    if items != [] {
      var html := Renderer.GenerateHtml(t, items, delay);
      outcome := PageWritten(html);
    } else {
      outcome := ExtractionFailed;
    }
  }

  method Run(src: Source, delay: nat -> string) returns (outcome: Outcome)
    ensures outcome.PageWritten? <==> src.Loaded? && WellFormed(src.doc) && TotalListLength(src.doc) > 0
    ensures outcome.PageWritten? ==> outcome.html == Renderer.Page(GalleryTemplate, Extracted(src), delay)
  {
    outcome := RunGallery(GalleryTemplate, src, delay);
  }
}
