/**
 * The search run on the site's own catalog: which entries a query finds, in
 * which order, in each language.  Each example fixes the exact result list.
 * A non-matching entry is ruled out by a query character that the entry's
 * texts lack in either case (`AbsentChar`) or by two adjacent query
 * characters that never stand side by side in them (`AbsentPair`,
 * `AbsentPairSplit`); a matching entry by the position of the match
 * (`FoundAt`).
 */
module SearchExamples {
  import opened Types
  import opened Text
  import opened Catalog
  import opened Search

  predicate Increasing(idx: seq<nat>)
  {
    forall k, l :: 0 <= k < l < |idx| ==> idx[k] < idx[l]
  }

  /** Two increasing lists of positions with the same members are the same list. */
  lemma {:induction false} IncreasingUnique(a: seq<nat>, b: seq<nat>)
    requires Increasing(a) && Increasing(b)
    requires forall n :: n in a <==> n in b
    ensures a == b
    decreases |a|
  {
    assert a != [] ==> a[0] in b;
    assert b != [] ==> b[0] in a;
    if a != [] {
      var x, y := a[|a| - 1], b[|b| - 1];
      assert x == y by {
        assert x in a && y in b;
        var k :| 0 <= k < |b| && b[k] == x;
        var l :| 0 <= l < |a| && a[l] == y;
        assert x <= y && y <= x;
      }
      var a', b' := a[..|a| - 1], b[..|b| - 1];
      forall n
        ensures n in a' <==> n in b'
      {
        if n in a' {
          var k :| 0 <= k < |a'| && a'[k] == n;
          assert n < x;
          assert n in b;
        }
        if n in b' {
          var k :| 0 <= k < |b'| && b'[k] == n;
          assert n < y;
          assert n in a;
        }
      }
      IncreasingUnique(a', b');
      assert a == a' + [x] && b == b' + [y];
    }
  }

  /**
   * When the increasing positions `idx` are exactly those of the matching
   * candidates, the filter keeps the candidates at `idx`.
   */
  lemma FilterIs(c: seq<SearchResult>, query: string, idx: seq<nat>)
    requires Increasing(idx)
    requires forall k :: 0 <= k < |idx| ==> idx[k] < |c|
    requires forall i :: 0 <= i < |c| ==> (i in idx <==> Matches(c[i], query))
    ensures Filter(c, query) == Select(c, idx)
  {
    var m := MatchIndices(c, query);
    forall n
      ensures n in m <==> n in idx
    {
      if n in m {
        var k :| 0 <= k < |m| && m[k] == n;
      }
      if n in idx {
        var k :| 0 <= k < |idx| && idx[k] == n;
      }
    }
    IncreasingUnique(m, idx);
    FilterSelects(c, query);
  }

  /** What an example names of each result: its type, title, page and id. */
  function Summary(r: seq<SearchResult>): seq<(ResultType, string, Page, Option<string>)>
  {
    seq(|r|, k requires 0 <= k < |r| => (r[k].kind, r[k].title, r[k].targetPage, r[k].id))
  }

  /** `AbsentPair` for a text written as two literals. */
  lemma AbsentPairSplit(a: string, b: string, q: string, j: nat, c: char, C: char, d: char, D: char)
    requires j + 1 < |q| && q[j] == c && q[j + 1] == d && UpperChar(c) == C && UpperChar(d) == D
    requires forall k :: 0 <= k < |a| - 1 ==> !((a[k] == c || a[k] == C) && (a[k + 1] == d || a[k + 1] == D))
    requires forall k :: 0 <= k < |b| - 1 ==> !((b[k] == c || b[k] == C) && (b[k + 1] == d || b[k + 1] == D))
    requires a == [] || b == [] || !((a[|a| - 1] == c || a[|a| - 1] == C) && (b[0] == d || b[0] == D))
    ensures !Contains(Lower(a + b), q)
  {
    var s := a + b;
    forall k | 0 <= k < |s| - 1
      ensures !((s[k] == c || s[k] == C) && (s[k + 1] == d || s[k + 1] == D))
    {
      if k + 1 < |a| {
        assert s[k] == a[k] && s[k + 1] == a[k + 1];
      } else if k >= |a| {
        assert s[k] == b[k - |a|] && s[k + 1] == b[k - |a| + 1];
      } else {
        assert s[k] == a[|a| - 1] && s[k + 1] == b[0];
      }
    }
    AbsentPair(s, q, j, c, C, d, D);
  }

  /** `AbsentChar` for a text written as two literals. */
  lemma AbsentCharSplit(a: string, b: string, q: string, j: nat, c: char, C: char)
    requires j < |q| && q[j] == c && UpperChar(c) == C
    requires forall k :: 0 <= k < |a| ==> a[k] != c && a[k] != C
    requires forall k :: 0 <= k < |b| ==> b[k] != c && b[k] != C
    ensures !Contains(Lower(a + b), q)
  {
    var s := a + b;
    forall k | 0 <= k < |s|
      ensures s[k] != c && s[k] != C
    {
      if k < |a| {
        assert s[k] == a[k];
      } else {
        assert s[k] == b[k - |a|];
      }
    }
    AbsentChar(s, q, j, c, C);
  }

  /** A match inside the second of two literals. */
  lemma FoundInSecond(a: string, b: string, q: string, i: nat)
    requires i + |q| <= |b|
    requires forall k :: 0 <= k < |q| ==> LowerChar(b[i + k]) == q[k]
    ensures Contains(Lower(a + b), q)
  {
    var s := Lower(a + b);
    forall k | 0 <= k < |q|
      ensures s[|a| + i + k] == q[k]
    {
      assert (a + b)[|a| + i + k] == b[i + k];
    }
    assert s[|a| + i..|a| + i + |q|] == q;
    assert OccursAt(s, q, |a| + i);
  }


  lemma Sky130InEnPdkIhp()
    ensures !Matches(FromPdk(EN_PDK_IHP), Lower("SKY130"))
  {
    AbsentChar("IHP SG13G2", Lower("SKY130"), 1, 'k', 'K');
    AbsentChar("130nm BiCMOS f_t/f_max 350/450 GHz.", Lower("SKY130"), 1, 'k', 'K');
  }

  lemma Sky130InEnPdkSky()
    ensures Matches(FromPdk(EN_PDK_SKY), Lower("SKY130"))
  {
    FoundAt("SkyWater SKY130", Lower("SKY130"), 9);
  }

  lemma Sky130InEnPdkGf()
    ensures !Matches(FromPdk(EN_PDK_GF), Lower("SKY130"))
  {
    AbsentChar("GlobalFoundries 180MCU", Lower("SKY130"), 1, 'k', 'K');
    AbsentChar("180nm CMOS for IoT applications.", Lower("SKY130"), 1, 'k', 'K');
  }

  lemma Sky130InEnPdksMembers()
    ensures forall i :: 0 <= i < |PdkCandidates(EN_PDKS)| ==> (i in [1] <==> Matches(PdkCandidates(EN_PDKS)[i], Lower("SKY130")))
  {
    var c := PdkCandidates(EN_PDKS);
    forall i | 0 <= i < |c|
      ensures i in [1] <==> Matches(c[i], Lower("SKY130"))
    {
      if i == 0 {
        assert c[i] == FromPdk(EN_PDK_IHP);
        Sky130InEnPdkIhp();
      } else if i == 1 {
        assert c[i] == FromPdk(EN_PDK_SKY);
        Sky130InEnPdkSky();
      } else {
        assert c[i] == FromPdk(EN_PDK_GF);
        Sky130InEnPdkGf();
      }
    }
  }

  /** The English PDKs that `sky130` finds. */
  lemma Sky130InEnPdks()
    ensures Filter(PdkCandidates(EN_PDKS), Lower("SKY130")) == [FromPdk(EN_PDK_SKY)]
  {
    Sky130InEnPdksMembers();
    FilterIs(PdkCandidates(EN_PDKS), Lower("SKY130"), [1]);
    assert Select(PdkCandidates(EN_PDKS), [1]) == [FromPdk(EN_PDK_SKY)];
  }

  lemma Sky130InEnToolXschem()
    ensures !Matches(FromTool(EN_TOOL_XSCHEM), Lower("SKY130"))
  {
    AbsentChar("Xschem", Lower("SKY130"), 1, 'k', 'K');
    AbsentChar("VLSI schematic capture.", Lower("SKY130"), 1, 'k', 'K');
  }

  lemma Sky130InEnToolNgspice()
    ensures !Matches(FromTool(EN_TOOL_NGSPICE), Lower("SKY130"))
  {
    AbsentChar("Ngspice", Lower("SKY130"), 1, 'k', 'K');
    AbsentChar("Mixed-signal SPICE simulator.", Lower("SKY130"), 1, 'k', 'K');
  }

  lemma Sky130InEnToolMagic()
    ensures !Matches(FromTool(EN_TOOL_MAGIC), Lower("SKY130"))
  {
    AbsentChar("Magic VLSI", Lower("SKY130"), 1, 'k', 'K');
    AbsentChar("VLSI layout with real-time DRC.", Lower("SKY130"), 1, 'k', 'K');
  }

  lemma Sky130InEnToolKlayout()
    ensures !Matches(FromTool(EN_TOOL_KLAYOUT), Lower("SKY130"))
  {
    AbsentChar("KLayout", Lower("SKY130"), 0, 's', 'S');
    AbsentChar("GDSII/OASIS viewer and editor.", Lower("SKY130"), 1, 'k', 'K');
  }

  lemma Sky130InEnToolOpenems()
    ensures !Matches(FromTool(EN_TOOL_OPENEMS), Lower("SKY130"))
  {
    AbsentChar("OpenEMS", Lower("SKY130"), 1, 'k', 'K');
    AbsentChar("3D FDTD electromagnetic simulator.", Lower("SKY130"), 1, 'k', 'K');
  }

  lemma Sky130InEnToolOpenvaf()
    ensures !Matches(FromTool(EN_TOOL_OPENVAF), Lower("SKY130"))
  {
    AbsentChar("OpenVAF", Lower("SKY130"), 0, 's', 'S');
    AbsentChar("Modern Verilog-A compiler.", Lower("SKY130"), 0, 's', 'S');
  }

  lemma Sky130InEnToolsMembers()
    ensures forall i :: 0 <= i < |ToolCandidates(EN_TOOLS)| ==> (!Matches(ToolCandidates(EN_TOOLS)[i], Lower("SKY130")))
  {
    var c := ToolCandidates(EN_TOOLS);
    forall i | 0 <= i < |c|
      ensures !Matches(c[i], Lower("SKY130"))
    {
      if i == 0 {
        assert c[i] == FromTool(EN_TOOL_XSCHEM);
        Sky130InEnToolXschem();
      } else if i == 1 {
        assert c[i] == FromTool(EN_TOOL_NGSPICE);
        Sky130InEnToolNgspice();
      } else if i == 2 {
        assert c[i] == FromTool(EN_TOOL_MAGIC);
        Sky130InEnToolMagic();
      } else if i == 3 {
        assert c[i] == FromTool(EN_TOOL_KLAYOUT);
        Sky130InEnToolKlayout();
      } else if i == 4 {
        assert c[i] == FromTool(EN_TOOL_OPENEMS);
        Sky130InEnToolOpenems();
      } else {
        assert c[i] == FromTool(EN_TOOL_OPENVAF);
        Sky130InEnToolOpenvaf();
      }
    }
  }

  /** The English tools that `sky130` finds. */
  lemma Sky130InEnTools()
    ensures Filter(ToolCandidates(EN_TOOLS), Lower("SKY130")) == []
  {
    Sky130InEnToolsMembers();
    FilterIs(ToolCandidates(EN_TOOLS), Lower("SKY130"), []);
    assert Select(ToolCandidates(EN_TOOLS), []) == [];
  }

  lemma Sky130InIhpOpenpdk()
    ensures !Matches(FromResource(IHP_OPENPDK), Lower("SKY130"))
  {
    AbsentChar("IHP OpenPDK (GitHub)", Lower("SKY130"), 0, 's', 'S');
    AbsentCharSplit("The official source for ", "the SG13G2 Open PDK.", Lower("SKY130"), 2, 'y', 'Y');
  }

  lemma Sky130InSkywaterDocs()
    ensures Matches(FromResource(SKYWATER_DOCS), Lower("SKY130"))
  {
    FoundInSecond("Complete reference for ", "the SKY130 process.", Lower("SKY130"), 4);
  }

  lemma Sky130InCiAberto()
    ensures !Matches(FromResource(CI_ABERTO), Lower("SKY130"))
  {
    AbsentChar("CI Aberto (Brazil)", Lower("SKY130"), 0, 's', 'S');
    AbsentCharSplit("Brazilian initiative for ", "open hardware curation.", Lower("SKY130"), 0, 's', 'S');
  }

  lemma Sky130InOneStudentOneChip()
    ensures !Matches(FromResource(ONE_STUDENT_ONE_CHIP), Lower("SKY130"))
  {
    AbsentChar("One Student One Chip (ysyx)", Lower("SKY130"), 1, 'k', 'K');
    AbsentCharSplit("A massive learning-by-doing ", "program from China.", Lower("SKY130"), 1, 'k', 'K');
  }

  lemma Sky130InEfablessMpw()
    ensures !Matches(FromResource(EFABLESS_MPW), Lower("SKY130"))
  {
    AbsentChar("Efabless Open MPW", Lower("SKY130"), 1, 'k', 'K');
    AbsentChar("Apply for free silicon manufacturing.", Lower("SKY130"), 1, 'k', 'K');
  }

  lemma Sky130InFosseeEsim()
    ensures !Matches(FromResource(FOSSEE_ESIM), Lower("SKY130"))
  {
    AbsentChar("FOSSEE eSim", Lower("SKY130"), 1, 'k', 'K');
    AbsentCharSplit("An integrated circuit design ", "tool using open-source tools.", Lower("SKY130"), 1, 'k', 'K');
  }

  lemma Sky130InZeroToAsic()
    ensures !Matches(FromResource(ZERO_TO_ASIC), Lower("SKY130"))
  {
    AbsentChar("Zero to ASIC Course", Lower("SKY130"), 1, 'k', 'K');
    AbsentCharSplit("Comprehensive guide to ", "designing your first chip.", Lower("SKY130"), 1, 'k', 'K');
  }

  lemma Sky130InResourcesMembers()
    ensures forall i :: 0 <= i < |ResourceCandidates(RESOURCES)| ==> (i in [1] <==> Matches(ResourceCandidates(RESOURCES)[i], Lower("SKY130")))
  {
    var c := ResourceCandidates(RESOURCES);
    forall i | 0 <= i < |c|
      ensures i in [1] <==> Matches(c[i], Lower("SKY130"))
    {
      if i == 0 {
        assert c[i] == FromResource(IHP_OPENPDK);
        Sky130InIhpOpenpdk();
      } else if i == 1 {
        assert c[i] == FromResource(SKYWATER_DOCS);
        Sky130InSkywaterDocs();
      } else if i == 2 {
        assert c[i] == FromResource(CI_ABERTO);
        Sky130InCiAberto();
      } else if i == 3 {
        assert c[i] == FromResource(ONE_STUDENT_ONE_CHIP);
        Sky130InOneStudentOneChip();
      } else if i == 4 {
        assert c[i] == FromResource(EFABLESS_MPW);
        Sky130InEfablessMpw();
      } else if i == 5 {
        assert c[i] == FromResource(FOSSEE_ESIM);
        Sky130InFosseeEsim();
      } else {
        assert c[i] == FromResource(ZERO_TO_ASIC);
        Sky130InZeroToAsic();
      }
    }
  }

  /** The resource links that `sky130` finds. */
  lemma Sky130InResources()
    ensures Filter(ResourceCandidates(RESOURCES), Lower("SKY130")) == [FromResource(SKYWATER_DOCS)]
  {
    Sky130InResourcesMembers();
    FilterIs(ResourceCandidates(RESOURCES), Lower("SKY130"), [1]);
    assert Select(ResourceCandidates(RESOURCES), [1]) == [FromResource(SKYWATER_DOCS)];
  }

  /** The English PDK and tool lists, as the search reads them from the English catalog. */
  lemma EnLists()
    ensures EN.pdkSection.options == EN_PDKS && EN.toolsSection.tools == EN_TOOLS
  {
  }

  /** Every match of `sky130` in the English lists, category by category in the order of the scan. */
  lemma EnSky130All()
    ensures AllMatches(EN_PDKS, EN_TOOLS, RESOURCES, Lower("SKY130")) == [FromPdk(EN_PDK_SKY)] + [] + [FromResource(SKYWATER_DOCS)]
  {
    Sky130InEnPdks();
    Sky130InEnTools();
    Sky130InResources();
    CategoryOrder(EN_PDKS, EN_TOOLS, RESOURCES, Lower("SKY130"));
  }

  /** What `SKY130` finds in any catalog holding the English lists. */
  lemma EnSky130Found(t: ContentTranslation)
    requires t.pdkSection.options == EN_PDKS && t.toolsSection.tools == EN_TOOLS
    ensures Find(t, RESOURCES, "SKY130") == [FromPdk(EN_PDK_SKY)] + [] + [FromResource(SKYWATER_DOCS)]
  {
    assert Trim("SKY130") != [];
    EnSky130All();
    FindShowsAll(t, RESOURCES, "SKY130");
  }

  lemma EnSky130Summary()
    ensures Summary([FromPdk(EN_PDK_SKY)] + [] + [FromResource(SKYWATER_DOCS)]) == [(PDKResult, "SkyWater SKY130", Pdk, Some("sky")), (ResourceResult, "SkyWater Open PDK Docs", Resources, None)]
  {
  }

  /** `SKY130` in English finds the SkyWater PDK, then the SkyWater documentation. */
  lemma EnSky130()
    ensures Summary(Find(EN, RESOURCES, "SKY130")) == [(PDKResult, "SkyWater SKY130", Pdk, Some("sky")), (ResourceResult, "SkyWater Open PDK Docs", Resources, None)]
  {
    EnLists();
    EnSky130Found(EN);
    EnSky130Summary();
  }

  lemma Sky130InPtPdkIhp()
    ensures !Matches(FromPdk(PT_PDK_IHP), Lower("SKY130"))
  {
    AbsentChar("IHP SG13G2", Lower("SKY130"), 1, 'k', 'K');
    AbsentChar("130nm BiCMOS f_t/f_max 350/450 GHz.", Lower("SKY130"), 1, 'k', 'K');
  }

  lemma Sky130InPtPdkSky()
    ensures Matches(FromPdk(PT_PDK_SKY), Lower("SKY130"))
  {
    FoundAt("SkyWater SKY130", Lower("SKY130"), 9);
  }

  lemma Sky130InPtPdkGf()
    ensures !Matches(FromPdk(PT_PDK_GF), Lower("SKY130"))
  {
    AbsentChar("GlobalFoundries 180MCU", Lower("SKY130"), 1, 'k', 'K');
    AbsentChar("180nm CMOS para aplicações IoT.", Lower("SKY130"), 1, 'k', 'K');
  }

  lemma Sky130InPtPdksMembers()
    ensures forall i :: 0 <= i < |PdkCandidates(PT_PDKS)| ==> (i in [1] <==> Matches(PdkCandidates(PT_PDKS)[i], Lower("SKY130")))
  {
    var c := PdkCandidates(PT_PDKS);
    forall i | 0 <= i < |c|
      ensures i in [1] <==> Matches(c[i], Lower("SKY130"))
    {
      if i == 0 {
        assert c[i] == FromPdk(PT_PDK_IHP);
        Sky130InPtPdkIhp();
      } else if i == 1 {
        assert c[i] == FromPdk(PT_PDK_SKY);
        Sky130InPtPdkSky();
      } else {
        assert c[i] == FromPdk(PT_PDK_GF);
        Sky130InPtPdkGf();
      }
    }
  }

  /** The Portuguese PDKs that `sky130` finds. */
  lemma Sky130InPtPdks()
    ensures Filter(PdkCandidates(PT_PDKS), Lower("SKY130")) == [FromPdk(PT_PDK_SKY)]
  {
    Sky130InPtPdksMembers();
    FilterIs(PdkCandidates(PT_PDKS), Lower("SKY130"), [1]);
    assert Select(PdkCandidates(PT_PDKS), [1]) == [FromPdk(PT_PDK_SKY)];
  }

  lemma Sky130InPtToolXschem()
    ensures !Matches(FromTool(PT_TOOL_XSCHEM), Lower("SKY130"))
  {
    AbsentChar("Xschem", Lower("SKY130"), 1, 'k', 'K');
    AbsentChar("Captura de esquemáticos VLSI.", Lower("SKY130"), 1, 'k', 'K');
  }

  lemma Sky130InPtToolNgspice()
    ensures !Matches(FromTool(PT_TOOL_NGSPICE), Lower("SKY130"))
  {
    AbsentChar("Ngspice", Lower("SKY130"), 1, 'k', 'K');
    AbsentChar("Simulador SPICE de sinal misto.", Lower("SKY130"), 1, 'k', 'K');
  }

  lemma Sky130InPtToolMagic()
    ensures !Matches(FromTool(PT_TOOL_MAGIC), Lower("SKY130"))
  {
    AbsentChar("Magic VLSI", Lower("SKY130"), 1, 'k', 'K');
    AbsentChar("Layout VLSI com DRC em tempo real.", Lower("SKY130"), 1, 'k', 'K');
  }

  lemma Sky130InPtToolKlayout()
    ensures !Matches(FromTool(PT_TOOL_KLAYOUT), Lower("SKY130"))
  {
    AbsentChar("KLayout", Lower("SKY130"), 0, 's', 'S');
    AbsentChar("Editor e visualizador de GDSII/OASIS.", Lower("SKY130"), 1, 'k', 'K');
  }

  lemma Sky130InPtToolOpenems()
    ensures !Matches(FromTool(PT_TOOL_OPENEMS), Lower("SKY130"))
  {
    AbsentChar("OpenEMS", Lower("SKY130"), 1, 'k', 'K');
    AbsentChar("Simulador eletromagnético 3D FDTD.", Lower("SKY130"), 1, 'k', 'K');
  }

  lemma Sky130InPtToolOpenvaf()
    ensures !Matches(FromTool(PT_TOOL_OPENVAF), Lower("SKY130"))
  {
    AbsentChar("OpenVAF", Lower("SKY130"), 0, 's', 'S');
    AbsentChar("Compilador Verilog-A moderno.", Lower("SKY130"), 0, 's', 'S');
  }

  lemma Sky130InPtToolsMembers()
    ensures forall i :: 0 <= i < |ToolCandidates(PT_TOOLS)| ==> (!Matches(ToolCandidates(PT_TOOLS)[i], Lower("SKY130")))
  {
    var c := ToolCandidates(PT_TOOLS);
    forall i | 0 <= i < |c|
      ensures !Matches(c[i], Lower("SKY130"))
    {
      if i == 0 {
        assert c[i] == FromTool(PT_TOOL_XSCHEM);
        Sky130InPtToolXschem();
      } else if i == 1 {
        assert c[i] == FromTool(PT_TOOL_NGSPICE);
        Sky130InPtToolNgspice();
      } else if i == 2 {
        assert c[i] == FromTool(PT_TOOL_MAGIC);
        Sky130InPtToolMagic();
      } else if i == 3 {
        assert c[i] == FromTool(PT_TOOL_KLAYOUT);
        Sky130InPtToolKlayout();
      } else if i == 4 {
        assert c[i] == FromTool(PT_TOOL_OPENEMS);
        Sky130InPtToolOpenems();
      } else {
        assert c[i] == FromTool(PT_TOOL_OPENVAF);
        Sky130InPtToolOpenvaf();
      }
    }
  }

  /** The Portuguese tools that `sky130` finds. */
  lemma Sky130InPtTools()
    ensures Filter(ToolCandidates(PT_TOOLS), Lower("SKY130")) == []
  {
    Sky130InPtToolsMembers();
    FilterIs(ToolCandidates(PT_TOOLS), Lower("SKY130"), []);
    assert Select(ToolCandidates(PT_TOOLS), []) == [];
  }

  /** The Portuguese PDK and tool lists, as the search reads them from the Portuguese catalog. */
  lemma PtLists()
    ensures PT.pdkSection.options == PT_PDKS && PT.toolsSection.tools == PT_TOOLS
  {
  }

  /** Every match of `sky130` in the Portuguese lists, category by category in the order of the scan. */
  lemma PtSky130All()
    ensures AllMatches(PT_PDKS, PT_TOOLS, RESOURCES, Lower("SKY130")) == [FromPdk(PT_PDK_SKY)] + [] + [FromResource(SKYWATER_DOCS)]
  {
    Sky130InPtPdks();
    Sky130InPtTools();
    Sky130InResources();
    CategoryOrder(PT_PDKS, PT_TOOLS, RESOURCES, Lower("SKY130"));
  }

  /** What `SKY130` finds in any catalog holding the Portuguese lists. */
  lemma PtSky130Found(t: ContentTranslation)
    requires t.pdkSection.options == PT_PDKS && t.toolsSection.tools == PT_TOOLS
    ensures Find(t, RESOURCES, "SKY130") == [FromPdk(PT_PDK_SKY)] + [] + [FromResource(SKYWATER_DOCS)]
  {
    assert Trim("SKY130") != [];
    PtSky130All();
    FindShowsAll(t, RESOURCES, "SKY130");
  }

  lemma PtSky130Summary()
    ensures Summary([FromPdk(PT_PDK_SKY)] + [] + [FromResource(SKYWATER_DOCS)]) == [(PDKResult, "SkyWater SKY130", Pdk, Some("sky")), (ResourceResult, "SkyWater Open PDK Docs", Resources, None)]
  {
  }

  /** `SKY130` in Portuguese finds the same two entries as in English. */
  lemma PtSky130()
    ensures Summary(Find(PT, RESOURCES, "SKY130")) == [(PDKResult, "SkyWater SKY130", Pdk, Some("sky")), (ResourceResult, "SkyWater Open PDK Docs", Resources, None)]
  {
    PtLists();
    PtSky130Found(PT);
    PtSky130Summary();
  }

  lemma Sky130InEsPdkIhp()
    ensures !Matches(FromPdk(ES_PDK_IHP), Lower("SKY130"))
  {
    AbsentChar("IHP SG13G2", Lower("SKY130"), 1, 'k', 'K');
    AbsentChar("130nm BiCMOS f_t/f_max 350/450 GHz.", Lower("SKY130"), 1, 'k', 'K');
  }

  lemma Sky130InEsPdkSky()
    ensures Matches(FromPdk(ES_PDK_SKY), Lower("SKY130"))
  {
    FoundAt("SkyWater SKY130", Lower("SKY130"), 9);
  }

  lemma Sky130InEsPdkGf()
    ensures !Matches(FromPdk(ES_PDK_GF), Lower("SKY130"))
  {
    AbsentChar("GlobalFoundries 180MCU", Lower("SKY130"), 1, 'k', 'K');
    AbsentChar("180nm CMOS para aplicaciones IoT.", Lower("SKY130"), 1, 'k', 'K');
  }

  lemma Sky130InEsPdksMembers()
    ensures forall i :: 0 <= i < |PdkCandidates(ES_PDKS)| ==> (i in [1] <==> Matches(PdkCandidates(ES_PDKS)[i], Lower("SKY130")))
  {
    var c := PdkCandidates(ES_PDKS);
    forall i | 0 <= i < |c|
      ensures i in [1] <==> Matches(c[i], Lower("SKY130"))
    {
      if i == 0 {
        assert c[i] == FromPdk(ES_PDK_IHP);
        Sky130InEsPdkIhp();
      } else if i == 1 {
        assert c[i] == FromPdk(ES_PDK_SKY);
        Sky130InEsPdkSky();
      } else {
        assert c[i] == FromPdk(ES_PDK_GF);
        Sky130InEsPdkGf();
      }
    }
  }

  /** The Spanish PDKs that `sky130` finds. */
  lemma Sky130InEsPdks()
    ensures Filter(PdkCandidates(ES_PDKS), Lower("SKY130")) == [FromPdk(ES_PDK_SKY)]
  {
    Sky130InEsPdksMembers();
    FilterIs(PdkCandidates(ES_PDKS), Lower("SKY130"), [1]);
    assert Select(PdkCandidates(ES_PDKS), [1]) == [FromPdk(ES_PDK_SKY)];
  }

  lemma Sky130InEsToolXschem()
    ensures !Matches(FromTool(ES_TOOL_XSCHEM), Lower("SKY130"))
  {
    AbsentChar("Xschem", Lower("SKY130"), 1, 'k', 'K');
    AbsentChar("Captura de esquemáticos VLSI.", Lower("SKY130"), 1, 'k', 'K');
  }

  lemma Sky130InEsToolNgspice()
    ensures !Matches(FromTool(ES_TOOL_NGSPICE), Lower("SKY130"))
  {
    AbsentChar("Ngspice", Lower("SKY130"), 1, 'k', 'K');
    AbsentChar("Simulador SPICE de señal mixta.", Lower("SKY130"), 1, 'k', 'K');
  }

  lemma Sky130InEsToolMagic()
    ensures !Matches(FromTool(ES_TOOL_MAGIC), Lower("SKY130"))
  {
    AbsentChar("Magic VLSI", Lower("SKY130"), 1, 'k', 'K');
    AbsentChar("Layout VLSI con DRC en tiempo real.", Lower("SKY130"), 1, 'k', 'K');
  }

  lemma Sky130InEsToolKlayout()
    ensures !Matches(FromTool(ES_TOOL_KLAYOUT), Lower("SKY130"))
  {
    AbsentChar("KLayout", Lower("SKY130"), 0, 's', 'S');
    AbsentChar("Editor y visualizador de GDSII/OASIS.", Lower("SKY130"), 1, 'k', 'K');
  }

  lemma Sky130InEsToolOpenems()
    ensures !Matches(FromTool(ES_TOOL_OPENEMS), Lower("SKY130"))
  {
    AbsentChar("OpenEMS", Lower("SKY130"), 1, 'k', 'K');
    AbsentChar("Simulador electromagnético 3D FDTD.", Lower("SKY130"), 1, 'k', 'K');
  }

  lemma Sky130InEsToolOpenvaf()
    ensures !Matches(FromTool(ES_TOOL_OPENVAF), Lower("SKY130"))
  {
    AbsentChar("OpenVAF", Lower("SKY130"), 0, 's', 'S');
    AbsentChar("Compilador moderno de Verilog-A.", Lower("SKY130"), 0, 's', 'S');
  }

  lemma Sky130InEsToolsMembers()
    ensures forall i :: 0 <= i < |ToolCandidates(ES_TOOLS)| ==> (!Matches(ToolCandidates(ES_TOOLS)[i], Lower("SKY130")))
  {
    var c := ToolCandidates(ES_TOOLS);
    forall i | 0 <= i < |c|
      ensures !Matches(c[i], Lower("SKY130"))
    {
      if i == 0 {
        assert c[i] == FromTool(ES_TOOL_XSCHEM);
        Sky130InEsToolXschem();
      } else if i == 1 {
        assert c[i] == FromTool(ES_TOOL_NGSPICE);
        Sky130InEsToolNgspice();
      } else if i == 2 {
        assert c[i] == FromTool(ES_TOOL_MAGIC);
        Sky130InEsToolMagic();
      } else if i == 3 {
        assert c[i] == FromTool(ES_TOOL_KLAYOUT);
        Sky130InEsToolKlayout();
      } else if i == 4 {
        assert c[i] == FromTool(ES_TOOL_OPENEMS);
        Sky130InEsToolOpenems();
      } else {
        assert c[i] == FromTool(ES_TOOL_OPENVAF);
        Sky130InEsToolOpenvaf();
      }
    }
  }

  /** The Spanish tools that `sky130` finds. */
  lemma Sky130InEsTools()
    ensures Filter(ToolCandidates(ES_TOOLS), Lower("SKY130")) == []
  {
    Sky130InEsToolsMembers();
    FilterIs(ToolCandidates(ES_TOOLS), Lower("SKY130"), []);
    assert Select(ToolCandidates(ES_TOOLS), []) == [];
  }

  /** The Spanish PDK and tool lists, as the search reads them from the Spanish catalog. */
  lemma EsLists()
    ensures ES.pdkSection.options == ES_PDKS && ES.toolsSection.tools == ES_TOOLS
  {
  }

  /** Every match of `sky130` in the Spanish lists, category by category in the order of the scan. */
  lemma EsSky130All()
    ensures AllMatches(ES_PDKS, ES_TOOLS, RESOURCES, Lower("SKY130")) == [FromPdk(ES_PDK_SKY)] + [] + [FromResource(SKYWATER_DOCS)]
  {
    Sky130InEsPdks();
    Sky130InEsTools();
    Sky130InResources();
    CategoryOrder(ES_PDKS, ES_TOOLS, RESOURCES, Lower("SKY130"));
  }

  /** What `SKY130` finds in any catalog holding the Spanish lists. */
  lemma EsSky130Found(t: ContentTranslation)
    requires t.pdkSection.options == ES_PDKS && t.toolsSection.tools == ES_TOOLS
    ensures Find(t, RESOURCES, "SKY130") == [FromPdk(ES_PDK_SKY)] + [] + [FromResource(SKYWATER_DOCS)]
  {
    assert Trim("SKY130") != [];
    EsSky130All();
    FindShowsAll(t, RESOURCES, "SKY130");
  }

  lemma EsSky130Summary()
    ensures Summary([FromPdk(ES_PDK_SKY)] + [] + [FromResource(SKYWATER_DOCS)]) == [(PDKResult, "SkyWater SKY130", Pdk, Some("sky")), (ResourceResult, "SkyWater Open PDK Docs", Resources, None)]
  {
  }

  /** `SKY130` in Spanish finds the same two entries as in English. */
  lemma EsSky130()
    ensures Summary(Find(ES, RESOURCES, "SKY130")) == [(PDKResult, "SkyWater SKY130", Pdk, Some("sky")), (ResourceResult, "SkyWater Open PDK Docs", Resources, None)]
  {
    EsLists();
    EsSky130Found(ES);
    EsSky130Summary();
  }

  lemma OpenInEnPdkIhp()
    ensures !Matches(FromPdk(EN_PDK_IHP), Lower("open"))
  {
    AbsentChar("IHP SG13G2", Lower("open"), 0, 'o', 'O');
    AbsentChar("130nm BiCMOS f_t/f_max 350/450 GHz.", Lower("open"), 1, 'p', 'P');
  }

  lemma OpenInEnPdkSky()
    ensures Matches(FromPdk(EN_PDK_SKY), Lower("open"))
  {
    FoundInSecond("The first commercial ", "open-source PDK (130nm).", Lower("open"), 0);
  }

  lemma OpenInEnPdkGf()
    ensures !Matches(FromPdk(EN_PDK_GF), Lower("open"))
  {
    AbsentChar("GlobalFoundries 180MCU", Lower("open"), 1, 'p', 'P');
    AbsentChar("180nm CMOS for IoT applications.", Lower("open"), 2, 'e', 'E');
  }

  lemma OpenInEnPdksMembers()
    ensures forall i :: 0 <= i < |PdkCandidates(EN_PDKS)| ==> (i in [1] <==> Matches(PdkCandidates(EN_PDKS)[i], Lower("open")))
  {
    var c := PdkCandidates(EN_PDKS);
    forall i | 0 <= i < |c|
      ensures i in [1] <==> Matches(c[i], Lower("open"))
    {
      if i == 0 {
        assert c[i] == FromPdk(EN_PDK_IHP);
        OpenInEnPdkIhp();
      } else if i == 1 {
        assert c[i] == FromPdk(EN_PDK_SKY);
        OpenInEnPdkSky();
      } else {
        assert c[i] == FromPdk(EN_PDK_GF);
        OpenInEnPdkGf();
      }
    }
  }

  /** The English PDKs that `open` finds. */
  lemma OpenInEnPdks()
    ensures Filter(PdkCandidates(EN_PDKS), Lower("open")) == [FromPdk(EN_PDK_SKY)]
  {
    OpenInEnPdksMembers();
    FilterIs(PdkCandidates(EN_PDKS), Lower("open"), [1]);
    assert Select(PdkCandidates(EN_PDKS), [1]) == [FromPdk(EN_PDK_SKY)];
  }

  lemma OpenInEnToolXschem()
    ensures !Matches(FromTool(EN_TOOL_XSCHEM), Lower("open"))
  {
    AbsentChar("Xschem", Lower("open"), 0, 'o', 'O');
    AbsentChar("VLSI schematic capture.", Lower("open"), 0, 'o', 'O');
  }

  lemma OpenInEnToolNgspice()
    ensures !Matches(FromTool(EN_TOOL_NGSPICE), Lower("open"))
  {
    AbsentChar("Ngspice", Lower("open"), 0, 'o', 'O');
    AbsentPair("Mixed-signal SPICE simulator.", Lower("open"), 0, 'o', 'O', 'p', 'P');
  }

  lemma OpenInEnToolMagic()
    ensures !Matches(FromTool(EN_TOOL_MAGIC), Lower("open"))
  {
    AbsentChar("Magic VLSI", Lower("open"), 0, 'o', 'O');
    AbsentChar("VLSI layout with real-time DRC.", Lower("open"), 1, 'p', 'P');
  }

  lemma OpenInEnToolKlayout()
    ensures !Matches(FromTool(EN_TOOL_KLAYOUT), Lower("open"))
  {
    AbsentChar("KLayout", Lower("open"), 1, 'p', 'P');
    AbsentChar("GDSII/OASIS viewer and editor.", Lower("open"), 1, 'p', 'P');
  }

  lemma OpenInEnToolOpenems()
    ensures Matches(FromTool(EN_TOOL_OPENEMS), Lower("open"))
  {
    FoundAt("OpenEMS", Lower("open"), 0);
  }

  lemma OpenInEnToolOpenvaf()
    ensures Matches(FromTool(EN_TOOL_OPENVAF), Lower("open"))
  {
    FoundAt("OpenVAF", Lower("open"), 0);
  }

  lemma OpenInEnToolsMembers()
    ensures forall i :: 0 <= i < |ToolCandidates(EN_TOOLS)| ==> (i in [4, 5] <==> Matches(ToolCandidates(EN_TOOLS)[i], Lower("open")))
  {
    var c := ToolCandidates(EN_TOOLS);
    forall i | 0 <= i < |c|
      ensures i in [4, 5] <==> Matches(c[i], Lower("open"))
    {
      if i == 0 {
        assert c[i] == FromTool(EN_TOOL_XSCHEM);
        OpenInEnToolXschem();
      } else if i == 1 {
        assert c[i] == FromTool(EN_TOOL_NGSPICE);
        OpenInEnToolNgspice();
      } else if i == 2 {
        assert c[i] == FromTool(EN_TOOL_MAGIC);
        OpenInEnToolMagic();
      } else if i == 3 {
        assert c[i] == FromTool(EN_TOOL_KLAYOUT);
        OpenInEnToolKlayout();
      } else if i == 4 {
        assert c[i] == FromTool(EN_TOOL_OPENEMS);
        OpenInEnToolOpenems();
      } else {
        assert c[i] == FromTool(EN_TOOL_OPENVAF);
        OpenInEnToolOpenvaf();
      }
    }
  }

  /** The English tools that `open` finds. */
  lemma OpenInEnTools()
    ensures Filter(ToolCandidates(EN_TOOLS), Lower("open")) == [FromTool(EN_TOOL_OPENEMS), FromTool(EN_TOOL_OPENVAF)]
  {
    OpenInEnToolsMembers();
    FilterIs(ToolCandidates(EN_TOOLS), Lower("open"), [4, 5]);
    assert Select(ToolCandidates(EN_TOOLS), [4, 5]) == [FromTool(EN_TOOL_OPENEMS), FromTool(EN_TOOL_OPENVAF)];
  }

  lemma OpenInIhpOpenpdk()
    ensures Matches(FromResource(IHP_OPENPDK), Lower("open"))
  {
    FoundAt("IHP OpenPDK (GitHub)", Lower("open"), 4);
  }

  lemma OpenInSkywaterDocs()
    ensures Matches(FromResource(SKYWATER_DOCS), Lower("open"))
  {
    FoundAt("SkyWater Open PDK Docs", Lower("open"), 9);
  }

  lemma OpenInCiAberto()
    ensures Matches(FromResource(CI_ABERTO), Lower("open"))
  {
    FoundInSecond("Brazilian initiative for ", "open hardware curation.", Lower("open"), 0);
  }

  lemma OpenInOneStudentOneChip()
    ensures !Matches(FromResource(ONE_STUDENT_ONE_CHIP), Lower("open"))
  {
    AbsentPair("One Student One Chip (ysyx)", Lower("open"), 0, 'o', 'O', 'p', 'P');
    AbsentPairSplit("A massive learning-by-doing ", "program from China.", Lower("open"), 0, 'o', 'O', 'p', 'P');
  }

  lemma OpenInEfablessMpw()
    ensures Matches(FromResource(EFABLESS_MPW), Lower("open"))
  {
    FoundAt("Efabless Open MPW", Lower("open"), 9);
  }

  lemma OpenInFosseeEsim()
    ensures Matches(FromResource(FOSSEE_ESIM), Lower("open"))
  {
    FoundInSecond("An integrated circuit design ", "tool using open-source tools.", Lower("open"), 11);
  }

  lemma OpenInZeroToAsic()
    ensures !Matches(FromResource(ZERO_TO_ASIC), Lower("open"))
  {
    AbsentChar("Zero to ASIC Course", Lower("open"), 1, 'p', 'P');
    AbsentPairSplit("Comprehensive guide to ", "designing your first chip.", Lower("open"), 0, 'o', 'O', 'p', 'P');
  }

  lemma OpenInResourcesMembers()
    ensures forall i :: 0 <= i < |ResourceCandidates(RESOURCES)| ==> (i in [0, 1, 2, 4, 5] <==> Matches(ResourceCandidates(RESOURCES)[i], Lower("open")))
  {
    var c := ResourceCandidates(RESOURCES);
    forall i | 0 <= i < |c|
      ensures i in [0, 1, 2, 4, 5] <==> Matches(c[i], Lower("open"))
    {
      if i == 0 {
        assert c[i] == FromResource(IHP_OPENPDK);
        OpenInIhpOpenpdk();
      } else if i == 1 {
        assert c[i] == FromResource(SKYWATER_DOCS);
        OpenInSkywaterDocs();
      } else if i == 2 {
        assert c[i] == FromResource(CI_ABERTO);
        OpenInCiAberto();
      } else if i == 3 {
        assert c[i] == FromResource(ONE_STUDENT_ONE_CHIP);
        OpenInOneStudentOneChip();
      } else if i == 4 {
        assert c[i] == FromResource(EFABLESS_MPW);
        OpenInEfablessMpw();
      } else if i == 5 {
        assert c[i] == FromResource(FOSSEE_ESIM);
        OpenInFosseeEsim();
      } else {
        assert c[i] == FromResource(ZERO_TO_ASIC);
        OpenInZeroToAsic();
      }
    }
  }

  lemma OpenInResourcesSelected()
    ensures Select(ResourceCandidates(RESOURCES), [0, 1, 2, 4, 5]) == [FromResource(IHP_OPENPDK), FromResource(SKYWATER_DOCS), FromResource(CI_ABERTO), FromResource(EFABLESS_MPW), FromResource(FOSSEE_ESIM)]
  {
  }

  /** The resource links that `open` finds. */
  lemma OpenInResources()
    ensures Filter(ResourceCandidates(RESOURCES), Lower("open")) == [FromResource(IHP_OPENPDK), FromResource(SKYWATER_DOCS), FromResource(CI_ABERTO), FromResource(EFABLESS_MPW), FromResource(FOSSEE_ESIM)]
  {
    OpenInResourcesMembers();
    FilterIs(ResourceCandidates(RESOURCES), Lower("open"), [0, 1, 2, 4, 5]);
    OpenInResourcesSelected();
  }

  /** Every match of `open` in the English lists, category by category in the order of the scan. */
  lemma EnOpenAll()
    ensures AllMatches(EN_PDKS, EN_TOOLS, RESOURCES, Lower("open")) == [FromPdk(EN_PDK_SKY)] + [FromTool(EN_TOOL_OPENEMS), FromTool(EN_TOOL_OPENVAF)] + [FromResource(IHP_OPENPDK), FromResource(SKYWATER_DOCS), FromResource(CI_ABERTO), FromResource(EFABLESS_MPW), FromResource(FOSSEE_ESIM)]
  {
    OpenInEnPdks();
    OpenInEnTools();
    OpenInResources();
    CategoryOrder(EN_PDKS, EN_TOOLS, RESOURCES, Lower("open"));
  }

  /** What `open` finds in any catalog holding the English lists. */
  lemma EnOpenFound(t: ContentTranslation)
    requires t.pdkSection.options == EN_PDKS && t.toolsSection.tools == EN_TOOLS
    ensures Find(t, RESOURCES, "open") == [FromPdk(EN_PDK_SKY)] + [FromTool(EN_TOOL_OPENEMS), FromTool(EN_TOOL_OPENVAF)] + [FromResource(IHP_OPENPDK), FromResource(SKYWATER_DOCS), FromResource(CI_ABERTO), FromResource(EFABLESS_MPW), FromResource(FOSSEE_ESIM)]
  {
    assert Trim("open") != [];
    EnOpenAll();
    FindShowsAll(t, RESOURCES, "open");
  }

  lemma EnOpenSummary()
    ensures Summary([FromPdk(EN_PDK_SKY)] + [FromTool(EN_TOOL_OPENEMS), FromTool(EN_TOOL_OPENVAF)] + [FromResource(IHP_OPENPDK), FromResource(SKYWATER_DOCS), FromResource(CI_ABERTO), FromResource(EFABLESS_MPW), FromResource(FOSSEE_ESIM)]) == [(PDKResult, "SkyWater SKY130", Pdk, Some("sky")), (ToolResult, "OpenEMS", Tools, Some("openems")), (ToolResult, "OpenVAF", Tools, Some("openvaf")), (ResourceResult, "IHP OpenPDK (GitHub)", Resources, None), (ResourceResult, "SkyWater Open PDK Docs", Resources, None), (ResourceResult, "CI Aberto (Brazil)", Resources, None), (ResourceResult, "Efabless Open MPW", Resources, None), (ResourceResult, "FOSSEE eSim", Resources, None)]
  {
  }

  /** `open` in English: one PDK, two tools and five resource links, eight results in all. */
  lemma EnOpen()
    ensures Summary(Find(EN, RESOURCES, "open")) == [(PDKResult, "SkyWater SKY130", Pdk, Some("sky")), (ToolResult, "OpenEMS", Tools, Some("openems")), (ToolResult, "OpenVAF", Tools, Some("openvaf")), (ResourceResult, "IHP OpenPDK (GitHub)", Resources, None), (ResourceResult, "SkyWater Open PDK Docs", Resources, None), (ResourceResult, "CI Aberto (Brazil)", Resources, None), (ResourceResult, "Efabless Open MPW", Resources, None), (ResourceResult, "FOSSEE eSim", Resources, None)]
  {
    EnLists();
    EnOpenFound(EN);
    EnOpenSummary();
  }

  lemma IhpInEnPdkIhp()
    ensures Matches(FromPdk(EN_PDK_IHP), Lower("IHP"))
  {
    FoundAt("IHP SG13G2", Lower("IHP"), 0);
  }

  lemma SpaceIhpInEnPdkIhp()
    ensures !Matches(FromPdk(EN_PDK_IHP), Lower(" IHP"))
  {
    AbsentPair("IHP SG13G2", Lower(" IHP"), 0, ' ', ' ', 'i', 'I');
    AbsentChar("130nm BiCMOS f_t/f_max 350/450 GHz.", Lower(" IHP"), 3, 'p', 'P');
  }

  /**
   * The query is lowered but not trimmed before it is matched: `IHP` finds
   * the English IHP PDK, while ` IHP`, which is not blank, does not, because
   * neither its name nor its description holds a space before `IHP`.
   */
  lemma LeadingSpaceCounts()
    ensures Trim(" IHP") != []
    ensures Matches(FromPdk(EN_PDK_IHP), Lower("IHP"))
    ensures !Matches(FromPdk(EN_PDK_IHP), Lower(" IHP"))
  {
    assert !IsWhitespace(" IHP"[1]);
    TrimEmptyIffBlank(" IHP");
    IhpInEnPdkIhp();
    SpaceIhpInEnPdkIhp();
  }
}
