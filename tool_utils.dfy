/** Badge lookup of `utils/toolUtils.ts`. */
module ToolUtils {
  import opened Wrappers
  import opened Strings
  import Tools

  /** The registry key of a display name: lower-cased, whitespace runs replaced by `_`. */
  function NormalizeKey(name: string): (key: string)
    ensures NoUpper(key) && NoSpace(key)
    ensures |key| <= |name|
  {
    ToLowerProperties(name);
    ReplaceSpaceRunsChars(ToLower(name));
    ReplaceSpaceRunsKeepsNoUpper(ToLower(name));
    ReplaceSpaceRuns(ToLower(name))
  }

  /** A key already lower-case and free of whitespace is its own normal form. */
  lemma NormalizeFixedPoint(key: string)
    requires NoUpper(key) && NoSpace(key)
    ensures NormalizeKey(key) == key
  {
    ToLowerFixedPoint(key);
    ReplaceSpaceRunsFixedPoint(key);
  }

  /** Normalising twice is the same as normalising once. */
  lemma NormalizeIdempotent(name: string)
    ensures NormalizeKey(NormalizeKey(name)) == NormalizeKey(name)
  {
    NormalizeFixedPoint(NormalizeKey(name));
  }

  /** Every registry key is a fixed point of the normalisation. */
  lemma RegistryKeysNormalized(key: string)
    requires key in Tools.ConversionTools
    ensures NormalizeKey(key) == key
  {
    Tools.KeysAreLowerWords();
    NormalizeFixedPoint(key);
  }

  /** A registry key, given as it is, gets the badge of its plan. */
  lemma BadgeOfRegistryKey(key: string)
    requires Tools.Lookup(key).Some?
    ensures GetToolBadge(key) ==
      match Tools.Lookup(key).value.planRequired
      case Pro => Some("PRO")
      case Enterprise => Some("ENTERPRISE")
      case Free => None
  {
    RegistryKeysNormalized(key);
  }

  /** `getToolBadge`: `"PRO"`, `"ENTERPRISE"` or `null`. */
  function GetToolBadge(toolKey: string): (badge: Option<string>)
    ensures badge == None || badge == Some("PRO") || badge == Some("ENTERPRISE")
    ensures badge != Some("free")
    ensures badge == None <==> NormalizeKey(toolKey) !in Tools.ConversionTools
    ensures badge == Some("PRO") <==>
      NormalizeKey(toolKey) in Tools.ConversionTools && Tools.ConversionTools[NormalizeKey(toolKey)].planRequired == Tools.Pro
    ensures badge == Some("ENTERPRISE") <==>
      NormalizeKey(toolKey) in Tools.ConversionTools && Tools.ConversionTools[NormalizeKey(toolKey)].planRequired == Tools.Enterprise
  {
    match Tools.Lookup(NormalizeKey(toolKey))
    case None => None
    case Some(tool) =>
      if tool.planRequired == Tools.Pro then Some("PRO")
      else if tool.planRequired == Tools.Enterprise then Some("ENTERPRISE")
      else None
  }

  /** Names with the same normal form get the same badge; in particular a name and its key. */
  lemma BadgeOfNormalized(name: string)
    ensures GetToolBadge(NormalizeKey(name)) == GetToolBadge(name)
  {
    NormalizeIdempotent(name);
  }

  /** Replacing whitespace runs turns three words separated by such runs into the words joined by `_`. */
  lemma JoinThree(a: string, sp1: string, b: string, sp2: string, c: string)
    requires NoSpace(a) && NoSpace(b) && NoSpace(c) && |b| > 0 && |c| > 0
    requires AllSpace(sp1) && |sp1| > 0 && AllSpace(sp2) && |sp2| > 0
    ensures ReplaceSpaceRuns(a + (sp1 + (b + (sp2 + c)))) == a + ("_" + (b + ("_" + c)))
  {
    assert c[0] in c;
    ReplaceWordAndRun(b, sp2, c);
    ReplaceSpaceRunsFixedPoint(c);
    assert (b + (sp2 + c))[0] == b[0] && b[0] in b;
    ReplaceWordAndRun(a, sp1, b + (sp2 + c));
  }

  lemma LowerDwgToPdf()
    ensures ToLower("DWG to PDF") == "dwg" + (" " + ("to" + (" " + "pdf")))
  {
  }

  lemma LowerLowerDwgToPdf()
    ensures ToLower("dwg to pdf") == "dwg" + (" " + ("to" + (" " + "pdf")))
  {
  }

  lemma LowerSpacedDwgToPdf()
    ensures ToLower("DWG   to PDF") == "dwg" + ("   " + ("to" + (" " + "pdf")))
  {
  }

  lemma LowerBinToPdf()
    ensures ToLower("Bin to PDF") == "bin" + (" " + ("to" + (" " + "pdf")))
  {
  }

  lemma LowerCadToPdf()
    ensures ToLower("CAD to PDF") == "cad" + (" " + ("to" + (" " + "pdf")))
  {
  }

  lemma LowerMerge()
    ensures ToLower("Merge") == "mer" + "ge"
  {
  }

  lemma KeyOfDwgToPdf()
    ensures NormalizeKey("DWG to PDF") == "dwg_to_pdf"
    ensures NormalizeKey("dwg to pdf") == "dwg_to_pdf"
  {
    LowerDwgToPdf();
    LowerLowerDwgToPdf();
    JoinThree("dwg", " ", "to", " ", "pdf");
    assert "dwg" + ("_" + ("to" + ("_" + "pdf"))) == "dwg_to_pdf";
  }

  lemma KeyOfSpacedDwgToPdf()
    ensures NormalizeKey("DWG   to PDF") == "dwg_to_pdf"
  {
    LowerSpacedDwgToPdf();
    JoinThree("dwg", "   ", "to", " ", "pdf");
    assert "dwg" + ("_" + ("to" + ("_" + "pdf"))) == "dwg_to_pdf";
  }

  /** Names with the same key get the same badge. */
  lemma BadgeOfKey(name: string, key: string)
    requires NormalizeKey(name) == key
    ensures GetToolBadge(name) == if Tools.Lookup(key).Some? then GetToolBadge(key) else None
  {
    if Tools.Lookup(key).Some? {
      NormalizeIdempotent(name);
    }
  }

  /** The registry key itself gets the badge of its plan. */
  lemma BadgeOfDwgToPdfKey()
    ensures GetToolBadge("dwg_to_pdf") == Some("PRO")
  {
    Tools.DwgToPdfEntry();
    BadgeOfRegistryKey("dwg_to_pdf");
  }

  lemma BadgeOfDwgToPdfName()
    ensures GetToolBadge("DWG to PDF") == Some("PRO")
  {
    KeyOfDwgToPdf();
    Tools.DwgToPdfEntry();
    BadgeOfKey("DWG to PDF", "dwg_to_pdf");
    BadgeOfDwgToPdfKey();
  }

  lemma BadgeOfLowerDwgToPdfName()
    ensures GetToolBadge("dwg to pdf") == Some("PRO")
  {
    KeyOfDwgToPdf();
    Tools.DwgToPdfEntry();
    BadgeOfKey("dwg to pdf", "dwg_to_pdf");
    BadgeOfDwgToPdfKey();
  }

  lemma BadgeOfSpacedDwgToPdfName()
    ensures GetToolBadge("DWG   to PDF") == Some("PRO")
  {
    KeyOfSpacedDwgToPdf();
    Tools.DwgToPdfEntry();
    BadgeOfKey("DWG   to PDF", "dwg_to_pdf");
    BadgeOfDwgToPdfKey();
  }

  /** The spellings of "DWG to PDF" all get its badge. */
  lemma BadgeIgnoresSpelling()
    ensures GetToolBadge("DWG to PDF") == Some("PRO")
    ensures GetToolBadge("dwg to pdf") == Some("PRO")
    ensures GetToolBadge("dwg_to_pdf") == Some("PRO")
    ensures GetToolBadge("DWG   to PDF") == Some("PRO")
  {
    BadgeOfDwgToPdfName();
    BadgeOfLowerDwgToPdfName();
    BadgeOfDwgToPdfKey();
    BadgeOfSpacedDwgToPdfName();
  }

  lemma KeyOfBinToPdf()
    ensures NormalizeKey("Bin to PDF") == "bin_to_pdf"
  {
    LowerBinToPdf();
    JoinThree("bin", " ", "to", " ", "pdf");
    assert "bin" + ("_" + ("to" + ("_" + "pdf"))) == "bin_to_pdf";
  }

  lemma KeyOfCadToPdf()
    ensures NormalizeKey("CAD to PDF") == "cad_to_pdf"
  {
    LowerCadToPdf();
    JoinThree("cad", " ", "to", " ", "pdf");
    assert "cad" + ("_" + ("to" + ("_" + "pdf"))) == "cad_to_pdf";
  }

  lemma KeyOfMerge()
    ensures NormalizeKey("Merge") == "merge"
  {
    LowerMerge();
    assert NoSpace("mer" + "ge");
    ReplaceSpaceRunsFixedPoint("mer" + "ge");
    assert "mer" + "ge" == "merge";
  }

  lemma BadgeOfBinToPdfName()
    ensures GetToolBadge("Bin to PDF") == Some("ENTERPRISE")
  {
    KeyOfBinToPdf();
    Tools.BinToPdfEntry();
    BadgeOfKey("Bin to PDF", "bin_to_pdf");
    BadgeOfRegistryKey("bin_to_pdf");
  }

  lemma BadgeOfCadToPdfName()
    ensures GetToolBadge("CAD to PDF") == Some("PRO")
  {
    KeyOfCadToPdf();
    Tools.CadToPdfEntry();
    BadgeOfKey("CAD to PDF", "cad_to_pdf");
    BadgeOfRegistryKey("cad_to_pdf");
  }

  /** "Merge" normalises to a key the table does not have. */
  lemma BadgeOfMergeName()
    ensures GetToolBadge("Merge") == None
  {
    KeyOfMerge();
    assert |"merge"| == 5;
    BadgeOfKey("Merge", "merge");
  }

  /** Badges of catalogue names: two registered tools and one unregistered. */
  lemma BadgeCatalogueExamples()
    ensures GetToolBadge("Bin to PDF") == Some("ENTERPRISE")
    ensures GetToolBadge("CAD to PDF") == Some("PRO")
    ensures GetToolBadge("Merge") == None
  {
    BadgeOfBinToPdfName();
    BadgeOfCadToPdfName();
    BadgeOfMergeName();
  }
}
