/** The conversion-tool registry of `constants/tools.ts`. */
module Tools {
  import opened Wrappers
  import Strings

  /** `PlanType`: the subscription plans. */
  datatype PlanType = Free | Pro | Enterprise

  datatype Category = Cad | Binary | Document | Other

  /**
   * `ToolConfig`. The optional flags `vector_only` and `restricted` are
   * `false` where the table leaves them out (an absent flag is falsy).
   */
  datatype ToolConfig = ToolConfig(
    input: seq<string>,
    output: string,
    category: Category,
    planRequired: PlanType,
    vectorOnly: bool,
    restricted: bool)

  /** `CONVERSION_TOOLS`, keyed by normalised tool name. */
  const ConversionTools: map<string, ToolConfig> := map[
    "dwg_to_pdf" := ToolConfig(["dwg", "dxf", "dwt"], "pdf", Cad, Pro, false, false),
    "pdf_to_dwg" := ToolConfig(["pdf"], "dwg", Cad, Pro, true, false),
    "cad_to_pdf" := ToolConfig(["dwg", "dxf"], "pdf", Cad, Pro, false, false),
    "bin_to_pdf" := ToolConfig(["bin"], "pdf", Binary, Enterprise, false, true),
    "pdf_to_bin" := ToolConfig(["pdf"], "bin", Binary, Enterprise, false, true)
  ]

  /**
   * `CONVERSION_TOOLS[key]`, with `undefined` as `None`. The contract
   * records the shape of the table: which keys exist, and how category,
   * plan and the two flags relate across the five entries.
   */
  function Lookup(key: string): (r: Option<ToolConfig>)
    ensures r.Some? <==> key in {"dwg_to_pdf", "pdf_to_dwg", "cad_to_pdf", "bin_to_pdf", "pdf_to_bin"}
    ensures r.Some? ==> r.value.planRequired != Free
    ensures r.Some? && r.value.category == Cad ==> r.value.planRequired == Pro
    ensures r.Some? && r.value.category == Binary ==> r.value.planRequired == Enterprise
    ensures r.Some? ==> (r.value.vectorOnly <==> key == "pdf_to_dwg")
    ensures r.Some? ==> (r.value.restricted <==> key == "bin_to_pdf" || key == "pdf_to_bin")
    ensures r.Some? && r.value.restricted ==> r.value.planRequired == Enterprise
    ensures r.Some? ==> |r.value.input| > 0 && r.value.output !in r.value.input
  {
    if key in ConversionTools then Some(ConversionTools[key]) else None
  }

  /** The table has exactly the five conversion keys. */
  lemma RegistryKeys()
    ensures ConversionTools.Keys == {"dwg_to_pdf", "pdf_to_dwg", "cad_to_pdf", "bin_to_pdf", "pdf_to_bin"}
    ensures |ConversionTools| == 5
  {
    var keys := {"dwg_to_pdf", "pdf_to_dwg", "cad_to_pdf", "bin_to_pdf", "pdf_to_bin"};
    assert ConversionTools.Keys == keys;
    assert "dwg_to_pdf" != "pdf_to_dwg";
  }

  /** A key is a lower-case word: no upper-case letter and no whitespace. */
  predicate LowerWord(key: string) {
    Strings.NoUpper(key) && Strings.NoSpace(key)
  }

  lemma KeysAreLowerWordsCad()
    ensures LowerWord("dwg_to_pdf") && LowerWord("pdf_to_dwg") && LowerWord("cad_to_pdf")
  {
  }

  lemma KeysAreLowerWordsBinary()
    ensures LowerWord("bin_to_pdf") && LowerWord("pdf_to_bin")
  {
  }

  /** Every key is lower-case ASCII without whitespace. */
  lemma KeysAreLowerWords()
    ensures forall key :: key in ConversionTools ==> LowerWord(key)
  {
    RegistryKeys();
    KeysAreLowerWordsCad();
    KeysAreLowerWordsBinary();
  }

  /** The entry of `dwg_to_pdf`. */
  lemma DwgToPdfEntry()
    ensures Lookup("dwg_to_pdf") == Some(ToolConfig(["dwg", "dxf", "dwt"], "pdf", Cad, Pro, false, false))
  {
  }

  /** The entry of `cad_to_pdf`. */
  lemma CadToPdfEntry()
    ensures Lookup("cad_to_pdf") == Some(ToolConfig(["dwg", "dxf"], "pdf", Cad, Pro, false, false))
  {
  }

  /** The entry of `bin_to_pdf`. */
  lemma BinToPdfEntry()
    ensures Lookup("bin_to_pdf") == Some(ToolConfig(["bin"], "pdf", Binary, Enterprise, false, true))
  {
  }
}
