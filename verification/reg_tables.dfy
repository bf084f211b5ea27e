/** Register range tables. */
module RegTables {
  datatype Section = Section(start: nat, end: nat)

  /** start0 < end0 < start1 < end1 < ..., as the dump requires. */
  predicate Increasing(sections: seq<Section>) {
    && (forall i :: 0 <= i < |sections| ==> sections[i].start < sections[i].end)
    && (forall i :: 0 < i < |sections| ==> sections[i - 1].end < sections[i].start)
  }

  lemma {:induction false} Apart(sections: seq<Section>, i: nat, j: nat)
    requires Increasing(sections) && i < j < |sections|
    ensures sections[i].end < sections[j].start
    decreases j
  {
    if i < j - 1 {
      Apart(sections, i, j - 1);
      assert sections[j - 1].start < sections[j - 1].end;
    }
  }

  /** Where address a lands in the dump of the table. */
  function Offset(sections: seq<Section>, a: int): int
    requires sections != []
  {
    a - sections[0].start
  }

  /** From the first start to the last end. */
  function Size(sections: seq<Section>): int
    requires sections != []
  {
    sections[|sections| - 1].end - sections[0].start
  }

  /** A table and the declared length of its dump. */
  datatype RegTable = RegTable(sections: seq<Section>, size: nat)
  {
    /** An increasing table of the declared length, or no table. */
    predicate Valid() {
      sections == [] || (Increasing(sections) && size == Size(sections))
    }
  }

  // ------------------------------------------------------------ the shipped tables

  const RANGES_0: seq<Section> := [
    Section(0x800, 0x810), Section(0x820, 0x82C), Section(0x830, 0x8F4), Section(0x90C, 0x91C), Section(0xA14, 0xA18),
    Section(0xA84, 0xA94), Section(0xAA8, 0xAD4), Section(0xADC, 0xB40), Section(0x1000, 0x10A4),
    Section(0x10BC, 0x111C), Section(0x1134, 0x1138), Section(0x1144, 0x114C), Section(0x1150, 0x115C),
    Section(0x1160, 0x1178), Section(0x1240, 0x1260), Section(0x2000, 0x207C), Section(0x3000, 0x3014),
    Section(0x4000, 0x4014), Section(0x5000, 0x5124), Section(0x6000, 0x6040)
  ]

  const RANGES_1: seq<Section> := [
    Section(0x6080, 0x60CC), Section(0x6100, 0x611C), Section(0x6140, 0x61D8), Section(0x6200, 0x6238),
    Section(0x6240, 0x628C), Section(0x62C0, 0x62EC), Section(0x6380, 0x63E8), Section(0x6400, 0x6440),
    Section(0x6480, 0x64CC), Section(0x6500, 0x651C), Section(0x6540, 0x6580), Section(0x6600, 0x6638),
    Section(0x6640, 0x668C), Section(0x66C0, 0x66EC), Section(0x6780, 0x67E8), Section(0x7080, 0x708C),
    Section(0x70C0, 0x70C8), Section(0x7400, 0x741C), Section(0x7440, 0x7454), Section(0x7800, 0x7818)
  ]

  const RANGES_2: seq<Section> := [
    Section(0x8000, 0x8004), Section(0x8010, 0x8064), Section(0x8080, 0x8084), Section(0x80A0, 0x80A4),
    Section(0x80C0, 0x80C4), Section(0x80E0, 0x80F4), Section(0x8100, 0x8104), Section(0x8110, 0x812C),
    Section(0x9000, 0x9004), Section(0x9800, 0x982C), Section(0x9830, 0x9838), Section(0x9840, 0x986C),
    Section(0x9870, 0x9898), Section(0x9A00, 0x9C00), Section(0xD580, 0xD59C), Section(0xF000, 0xF0E0),
    Section(0xF140, 0xF190), Section(0xF250, 0xF25C), Section(0xF260, 0xF268), Section(0xF26C, 0xF2A8)
  ]

  const RANGES_3: seq<Section> := [
    Section(0x10008, 0x1000C), Section(0x10014, 0x10018), Section(0x1001C, 0x10020), Section(0x10024, 0x10028),
    Section(0x10030, 0x10034), Section(0x10040, 0x10054), Section(0x10058, 0x1007C), Section(0x10080, 0x100C4),
    Section(0x100C8, 0x10114), Section(0x1012C, 0x10130), Section(0x10138, 0x10144), Section(0x10200, 0x10220),
    Section(0x10230, 0x10250), Section(0x10260, 0x10280), Section(0x10290, 0x102B0), Section(0x102C0, 0x102DC),
    Section(0x102E0, 0x102F4), Section(0x102FC, 0x1037C), Section(0x10380, 0x10390), Section(0x10800, 0x10828)
  ]

  const RANGES_4: seq<Section> := [
    Section(0x10840, 0x10844), Section(0x10880, 0x10884), Section(0x108C0, 0x108E8), Section(0x10900, 0x10928),
    Section(0x10940, 0x10944), Section(0x10980, 0x10984), Section(0x109C0, 0x109E8), Section(0x10A00, 0x10A28),
    Section(0x10A40, 0x10A50), Section(0x11000, 0x11028), Section(0x11030, 0x11034), Section(0x11038, 0x11068),
    Section(0x11070, 0x11074), Section(0x11078, 0x110A8), Section(0x110B0, 0x110B4), Section(0x110B8, 0x110E8),
    Section(0x110F0, 0x110F4), Section(0x110F8, 0x11128), Section(0x11138, 0x11144), Section(0x11178, 0x11180)
  ]

  const RANGES_5: seq<Section> := [
    Section(0x111B8, 0x111C0), Section(0x111F8, 0x11200), Section(0x11238, 0x1123C), Section(0x11270, 0x11274),
    Section(0x11278, 0x1127C), Section(0x112B0, 0x112B4), Section(0x112B8, 0x112BC), Section(0x112F0, 0x112F4),
    Section(0x112F8, 0x112FC), Section(0x11338, 0x1133C), Section(0x11378, 0x1137C), Section(0x113B8, 0x113BC),
    Section(0x113F8, 0x113FC), Section(0x11438, 0x11440), Section(0x11478, 0x11480), Section(0x114B8, 0x114BC),
    Section(0x114F8, 0x114FC), Section(0x11538, 0x1153C), Section(0x11578, 0x1157C), Section(0x115B8, 0x115BC)
  ]

  const RANGES_6: seq<Section> := [
    Section(0x115F8, 0x115FC), Section(0x11638, 0x1163C), Section(0x11678, 0x1167C), Section(0x116B8, 0x116BC),
    Section(0x116F8, 0x116FC), Section(0x11738, 0x1173C), Section(0x11778, 0x1177C), Section(0x117B8, 0x117BC),
    Section(0x117F8, 0x117FC), Section(0x17000, 0x1701C), Section(0x17020, 0x170AC), Section(0x18000, 0x18050),
    Section(0x18054, 0x18074), Section(0x18080, 0x180D4), Section(0x180DC, 0x18104), Section(0x18108, 0x1813C),
    Section(0x18144, 0x18148), Section(0x18168, 0x18174), Section(0x18178, 0x18180), Section(0x181C8, 0x181E0)
  ]

  const RANGES_7: seq<Section> := [
    Section(0x181E4, 0x181E8), Section(0x181EC, 0x1820C), Section(0x1825C, 0x18280), Section(0x18284, 0x18290),
    Section(0x18294, 0x182A0), Section(0x18300, 0x18304), Section(0x18314, 0x18320), Section(0x18328, 0x18350),
    Section(0x1835C, 0x1836C), Section(0x18370, 0x18390), Section(0x18398, 0x183AC), Section(0x183BC, 0x183D8),
    Section(0x183DC, 0x183F4), Section(0x18400, 0x186F4), Section(0x186F8, 0x1871C), Section(0x18720, 0x18790),
    Section(0x19800, 0x19830), Section(0x19834, 0x19840), Section(0x19880, 0x1989C), Section(0x198A4, 0x198B0)
  ]

  const RANGES_8: seq<Section> := [
    Section(0x198BC, 0x19900), Section(0x19C00, 0x19C88), Section(0x19D00, 0x19D20), Section(0x19E00, 0x19E7C),
    Section(0x19E80, 0x19E94), Section(0x19E98, 0x19EAC), Section(0x19EB0, 0x19EBC), Section(0x19F70, 0x19F74),
    Section(0x19F80, 0x19F8C), Section(0x19FA0, 0x19FB4), Section(0x19FC0, 0x19FD8), Section(0x1A000, 0x1A200),
    Section(0x1A204, 0x1A210), Section(0x1A228, 0x1A22C), Section(0x1A230, 0x1A248), Section(0x1A250, 0x1A270),
    Section(0x1A280, 0x1A290), Section(0x1A2A0, 0x1A2A4), Section(0x1A2C0, 0x1A2EC), Section(0x1A300, 0x1A3BC)
  ]

  const RANGES_9: seq<Section> := [
    Section(0x1A3F0, 0x1A3F4), Section(0x1A3F8, 0x1A434), Section(0x1A438, 0x1A444), Section(0x1A448, 0x1A468),
    Section(0x1A580, 0x1A58C), Section(0x1A644, 0x1A654), Section(0x1A670, 0x1A698), Section(0x1A6AC, 0x1A6B0),
    Section(0x1A6D0, 0x1A6D4), Section(0x1A6EC, 0x1A70C), Section(0x1A710, 0x1A738), Section(0x1A7C0, 0x1A7D0),
    Section(0x1A7D4, 0x1A7D8), Section(0x1A7DC, 0x1A7E4), Section(0x1A7F0, 0x1A7F8), Section(0x1A888, 0x1A89C),
    Section(0x1A8A8, 0x1A8AC), Section(0x1A8C0, 0x1A8DC), Section(0x1A8F0, 0x1A8FC), Section(0x1AE04, 0x1AE08)
  ]

  const RANGES_10: seq<Section> := [
    Section(0x1AE18, 0x1AE24), Section(0x1AF80, 0x1AF8C), Section(0x1AFA0, 0x1AFB4), Section(0x1B000, 0x1B200),
    Section(0x1B284, 0x1B288), Section(0x1B2D0, 0x1B2D8), Section(0x1B2DC, 0x1B2EC), Section(0x1B300, 0x1B340),
    Section(0x1B374, 0x1B378), Section(0x1B380, 0x1B384), Section(0x1B388, 0x1B38C), Section(0x1B404, 0x1B408),
    Section(0x1B420, 0x1B428), Section(0x1B440, 0x1B444), Section(0x1B448, 0x1B44C), Section(0x1B450, 0x1B458),
    Section(0x1B45C, 0x1B468), Section(0x1B584, 0x1B58C), Section(0x1B68C, 0x1B690), Section(0x1B6AC, 0x1B6B0)
  ]

  const RANGES_11: seq<Section> := [
    Section(0x1B7F0, 0x1B7F8), Section(0x1C800, 0x1CC00), Section(0x1CE00, 0x1CE04), Section(0x1CF80, 0x1CF84),
    Section(0x1D200, 0x1D800), Section(0x1E000, 0x20014), Section(0x20100, 0x20124), Section(0x21400, 0x217A8),
    Section(0x21800, 0x21BA8), Section(0x21C00, 0x21FA8), Section(0x22000, 0x223A8), Section(0x22400, 0x227A8),
    Section(0x22800, 0x22BA8), Section(0x22C00, 0x22FA8), Section(0x23000, 0x233A8), Section(0x24000, 0x24034),
    Section(0x26000, 0x26064), Section(0x27000, 0x27024), Section(0x34000, 0x3400C), Section(0x34400, 0x3445C)
  ]

  const RANGES_12: seq<Section> := [
    Section(0x34800, 0x3485C), Section(0x34C00, 0x34C5C), Section(0x35000, 0x3505C), Section(0x35400, 0x3545C),
    Section(0x35800, 0x3585C), Section(0x35C00, 0x35C5C), Section(0x36000, 0x3605C), Section(0x38000, 0x38064),
    Section(0x38070, 0x380E0)
  ]

  const TAIL_V2: seq<Section> := [
    Section(0x3A000, 0x3A064), Section(0x40000, 0x400A4), Section(0x80000, 0x8000C), Section(0x80010, 0x80020)
  ]

  const TAIL_V3: seq<Section> := [
    Section(0x3A000, 0x3A074), Section(0x40000, 0x400A4), Section(0x80000, 0x8000C), Section(0x80010, 0x80020)
  ]

  /** The ranges both tables begin with. */
  const SHARED: seq<Section> :=
    RANGES_0 + RANGES_1 + RANGES_2 + RANGES_3 + RANGES_4 + RANGES_5 + RANGES_6
    + RANGES_7 + RANGES_8 + RANGES_9 + RANGES_10 + RANGES_11 + RANGES_12

  const REG_TABLE_V2: seq<Section> := SHARED + TAIL_V2

  const REG_TABLE_V3: seq<Section> := SHARED + TAIL_V3

  const REV2_1_REG_SIZE: nat := 0x7F820

  const REV3_REG_SIZE: nat := 0x7F820

  datatype TargetVersion = Rev2_1 | Rev3 | Rev3_2 | Qca9379Rev1 | OtherVersion

  function RegTableFor(version: TargetVersion): RegTable {
    match version
    case Rev2_1 => RegTable(REG_TABLE_V2, REV2_1_REG_SIZE)
    case Rev3 | Rev3_2 | Qca9379Rev1 => RegTable(REG_TABLE_V3, REV3_REG_SIZE)
    case OtherVersion => RegTable([], 0)
  }

  ghost predicate Spans(sections: seq<Section>, first: nat, last: nat) {
    && sections != [] && Increasing(sections)
    && sections[0].start == first && sections[|sections| - 1].end == last
  }

  lemma Join(a: seq<Section>, b: seq<Section>, first: nat, m: nat, n: nat, last: nat)
    requires Spans(a, first, m) && Spans(b, n, last) && m < n
    ensures Spans(a + b, first, last)
  {
  }

  lemma Ranges0()
    ensures Spans(RANGES_0, 0x800, 0x6040)
  {
  }

  lemma Ranges1()
    ensures Spans(RANGES_1, 0x6080, 0x7818)
  {
  }

  lemma Ranges2()
    ensures Spans(RANGES_2, 0x8000, 0xF2A8)
  {
  }

  lemma Ranges3()
    ensures Spans(RANGES_3, 0x10008, 0x10828)
  {
  }

  lemma Ranges4()
    ensures Spans(RANGES_4, 0x10840, 0x11180)
  {
  }

  lemma Ranges5()
    ensures Spans(RANGES_5, 0x111B8, 0x115BC)
  {
  }

  lemma Ranges6()
    ensures Spans(RANGES_6, 0x115F8, 0x181E0)
  {
  }

  lemma Ranges7()
    ensures Spans(RANGES_7, 0x181E4, 0x198B0)
  {
  }

  lemma Ranges8()
    ensures Spans(RANGES_8, 0x198BC, 0x1A3BC)
  {
  }

  lemma Ranges9()
    ensures Spans(RANGES_9, 0x1A3F0, 0x1AE08)
  {
  }

  lemma Ranges10()
    ensures Spans(RANGES_10, 0x1AE18, 0x1B6B0)
  {
  }

  lemma Ranges11()
    ensures Spans(RANGES_11, 0x1B7F0, 0x3445C)
  {
  }

  lemma Ranges12()
    ensures Spans(RANGES_12, 0x34800, 0x380E0)
  {
  }

  lemma TailV2()
    ensures Spans(TAIL_V2, 0x3A000, 0x80020)
  {
  }

  lemma TailV3()
    ensures Spans(TAIL_V3, 0x3A000, 0x80020)
  {
  }

  lemma SharedSpans()
    ensures Spans(SHARED, 0x800, 0x380E0)
  {
    Ranges0();
    var t := RANGES_0;
    Ranges1();
    Join(t, RANGES_1, 0x800, 0x6040, 0x6080, 0x7818);
    t := t + RANGES_1;
    Ranges2();
    Join(t, RANGES_2, 0x800, 0x7818, 0x8000, 0xF2A8);
    t := t + RANGES_2;
    Ranges3();
    Join(t, RANGES_3, 0x800, 0xF2A8, 0x10008, 0x10828);
    t := t + RANGES_3;
    Ranges4();
    Join(t, RANGES_4, 0x800, 0x10828, 0x10840, 0x11180);
    t := t + RANGES_4;
    Ranges5();
    Join(t, RANGES_5, 0x800, 0x11180, 0x111B8, 0x115BC);
    t := t + RANGES_5;
    Ranges6();
    Join(t, RANGES_6, 0x800, 0x115BC, 0x115F8, 0x181E0);
    t := t + RANGES_6;
    Ranges7();
    Join(t, RANGES_7, 0x800, 0x181E0, 0x181E4, 0x198B0);
    t := t + RANGES_7;
    Ranges8();
    Join(RANGES_0 + RANGES_1 + RANGES_2 + RANGES_3 + RANGES_4 + RANGES_5 + RANGES_6
    + RANGES_7, RANGES_8, 0x800, 0x198B0, 0x198BC, 0x1A3BC);
    Ranges9();
    Join(RANGES_0 + RANGES_1 + RANGES_2 + RANGES_3 + RANGES_4 + RANGES_5 + RANGES_6
    + RANGES_7 + RANGES_8, RANGES_9, 0x800, 0x1A3BC, 0x1A3F0, 0x1AE08);
    Ranges10();
    Join(RANGES_0 + RANGES_1 + RANGES_2 + RANGES_3 + RANGES_4 + RANGES_5 + RANGES_6
    + RANGES_7 + RANGES_8 + RANGES_9, RANGES_10, 0x800, 0x1AE08, 0x1AE18, 0x1B6B0);
    Ranges11();
    Join(RANGES_0 + RANGES_1 + RANGES_2 + RANGES_3 + RANGES_4 + RANGES_5 + RANGES_6
    + RANGES_7 + RANGES_8 + RANGES_9 + RANGES_10, RANGES_11, 0x800, 0x1B6B0, 0x1B7F0, 0x3445C);
    Ranges12();
    Join(RANGES_0 + RANGES_1 + RANGES_2 + RANGES_3 + RANGES_4 + RANGES_5 + RANGES_6
    + RANGES_7 + RANGES_8 + RANGES_9 + RANGES_10 + RANGES_11, RANGES_12, 0x800, 0x3445C, 0x34800, 0x380E0);
  }

  /** Both shipped tables are increasing and their declared sizes are the distance from
      the first start to the last end. */
  lemma ShippedTablesValid(version: TargetVersion)
    ensures RegTableFor(version).Valid()
    ensures RegTableFor(version).sections == [] <==> version == OtherVersion
    ensures version != OtherVersion ==> Spans(RegTableFor(version).sections, 0x800, 0x80020)
  {
    SharedSpans();
    TailV2();
    TailV3();
    Join(SHARED, TAIL_V2, 0x800, 0x380E0, 0x3A000, 0x80020);
    Join(SHARED, TAIL_V3, 0x800, 0x380E0, 0x3A000, 0x80020);
  }
}
