/**
 * The known-answer test of the RP2040 stub program: key word 0 is 0x80, the
 * other key words and the nonce are 0, and blocks 0, 3, 4 and 7 of the
 * keystream, each word passed through `salsa_little_endian`, are the sixteen
 * printed test-vector lines, four words to a line.
 *
 * The twenty rounds are evaluated word by word: one lemma per column round
 * and per row round of each block, chained through `DoubleRounds`.
 */
module Salsa20Vector {
  import opened Salsa20

  /** The key of the stub program. */
  const TestKey: seq<bv32> := [0x80, 0, 0, 0, 0, 0, 0, 0]

  /** A quarter round on a block: the four words of section 3 of the Salsa20 specification, the other twelve unchanged. */
  lemma Quarter(s: seq<bv32>, a: nat, b: nat, c: nat, d: nat)
    requires IsBlock(s) && Distinct(16, a, b, c, d)
    ensures var r := QuarterRound(s, a, b, c, d);
      && IsBlock(r)
      && r[b] == XorRotate(s[b], s[a], s[d], 7)
      && r[c] == XorRotate(s[c], r[b], s[a], 9)
      && r[d] == XorRotate(s[d], r[c], r[b], 13)
      && r[a] == XorRotate(s[a], r[d], r[c], 18)
      && forall n :: 0 <= n < 16 && n != a && n != b && n != c && n != d ==> r[n] == s[n]
  {
    QuarterRoundWords(s, a, b, c, d);
    forall n | 0 <= n < 16 && n != a && n != b && n != c && n != d {
      QuarterRoundFrame(s, a, b, c, d, n);
    }
  }

  /** The column round of double round 0 of block 0. */
  lemma B0Col0(s: seq<bv32>)
    requires IsBlock(s)
    requires s[0] == 0x6170_7865 && s[1] == 0x0000_0080 && s[2] == 0x0000_0000 && s[3] == 0x0000_0000 &&
      s[4] == 0x0000_0000 && s[5] == 0x3320_646e && s[6] == 0x0000_0000 && s[7] == 0x0000_0000 &&
      s[8] == 0x0000_0000 && s[9] == 0x0000_0000 && s[10] == 0x7962_2d32 && s[11] == 0x0000_0000 &&
      s[12] == 0x0000_0000 && s[13] == 0x0000_0000 && s[14] == 0x0000_0000 && s[15] == 0x6b20_6574
    ensures var r := ColumnRound(s);
      r[0] == 0x50e6_ebaf && r[1] == 0x30d3_e63d && r[2] == 0xf18c_dc54 && r[3] == 0x9032_ba35 &&
      r[4] == 0xb83c_32b0 && r[5] == 0xe42f_3e45 && r[6] == 0x6eb2_1454 && r[7] == 0xa63f_53f6 &&
      r[8] == 0x5956_2a33 && r[9] == 0x9032_7719 && r[10] == 0xbbc3_adc9 && r[11] == 0x41c5_66ce &&
      r[12] == 0x4b9c_6232 && r[13] == 0xa5b7_0f86 && r[14] == 0xb116_993c && r[15] == 0x8033_c566
  {
    ColumnRoundSteps(s);
    var t1 := QuarterRound(s, 0, 4, 8, 12);
    Quarter(s, 0, 4, 8, 12);
    assert t1[4] == 0xb83c_32b0 && t1[8] == 0x5956_2a33 && t1[12] == 0x4b9c_6232 && t1[0] == 0x50e6_ebaf;
    var t2 := QuarterRound(t1, 5, 9, 13, 1);
    Quarter(t1, 5, 9, 13, 1);
    assert t2[9] == 0x9032_7719 && t2[13] == 0xa5b7_0f86 && t2[1] == 0x30d3_e63d && t2[5] == 0xe42f_3e45;
    var t3 := QuarterRound(t2, 10, 14, 2, 6);
    Quarter(t2, 10, 14, 2, 6);
    assert t3[14] == 0xb116_993c && t3[2] == 0xf18c_dc54 && t3[6] == 0x6eb2_1454 && t3[10] == 0xbbc3_adc9;
    var t4 := QuarterRound(t3, 15, 3, 7, 11);
    Quarter(t3, 15, 3, 7, 11);
    assert t4[3] == 0x9032_ba35 && t4[7] == 0xa63f_53f6 && t4[11] == 0x41c5_66ce && t4[15] == 0x8033_c566;
  }

  /** The row round of double round 0 of block 0. */
  lemma B0Row0(s: seq<bv32>)
    requires IsBlock(s)
    requires s[0] == 0x50e6_ebaf && s[1] == 0x30d3_e63d && s[2] == 0xf18c_dc54 && s[3] == 0x9032_ba35 &&
      s[4] == 0xb83c_32b0 && s[5] == 0xe42f_3e45 && s[6] == 0x6eb2_1454 && s[7] == 0xa63f_53f6 &&
      s[8] == 0x5956_2a33 && s[9] == 0x9032_7719 && s[10] == 0xbbc3_adc9 && s[11] == 0x41c5_66ce &&
      s[12] == 0x4b9c_6232 && s[13] == 0xa5b7_0f86 && s[14] == 0xb116_993c && s[15] == 0x8033_c566
    ensures var r := RowRound(s);
      r[0] == 0x77c7_bdfb && r[1] == 0xbc01_144d && r[2] == 0x3e73_244d && r[3] == 0x1721_e57b &&
      r[4] == 0x93b8_74be && r[5] == 0x6d36_9a38 && r[6] == 0x5b0a_6e9a && r[7] == 0xd566_ed88 &&
      r[8] == 0x6cdd_42de && r[9] == 0x1b6b_53ef && r[10] == 0xe0f5_8ceb && r[11] == 0xbad7_17eb &&
      r[12] == 0xeeb3_332a && r[13] == 0x6846_2f5b && r[14] == 0x9d46_33e3 && r[15] == 0x0ccb_d357
  {
    RowRoundSteps(s);
    var t1 := QuarterRound(s, 0, 1, 2, 3);
    Quarter(s, 0, 1, 2, 3);
    assert t1[1] == 0xbc01_144d && t1[2] == 0x3e73_244d && t1[3] == 0x1721_e57b && t1[0] == 0x77c7_bdfb;
    var t2 := QuarterRound(t1, 5, 6, 7, 4);
    Quarter(t1, 5, 6, 7, 4);
    assert t2[6] == 0x5b0a_6e9a && t2[7] == 0xd566_ed88 && t2[4] == 0x93b8_74be && t2[5] == 0x6d36_9a38;
    var t3 := QuarterRound(t2, 10, 11, 8, 9);
    Quarter(t2, 10, 11, 8, 9);
    assert t3[11] == 0xbad7_17eb && t3[8] == 0x6cdd_42de && t3[9] == 0x1b6b_53ef && t3[10] == 0xe0f5_8ceb;
    var t4 := QuarterRound(t3, 15, 12, 13, 14);
    Quarter(t3, 15, 12, 13, 14);
    assert t4[12] == 0xeeb3_332a && t4[13] == 0x6846_2f5b && t4[14] == 0x9d46_33e3 && t4[15] == 0x0ccb_d357;
  }

  /** The column round of double round 1 of block 0. */
  lemma B0Col1(s: seq<bv32>)
    requires IsBlock(s)
    requires s[0] == 0x77c7_bdfb && s[1] == 0xbc01_144d && s[2] == 0x3e73_244d && s[3] == 0x1721_e57b &&
      s[4] == 0x93b8_74be && s[5] == 0x6d36_9a38 && s[6] == 0x5b0a_6e9a && s[7] == 0xd566_ed88 &&
      s[8] == 0x6cdd_42de && s[9] == 0x1b6b_53ef && s[10] == 0xe0f5_8ceb && s[11] == 0xbad7_17eb &&
      s[12] == 0xeeb3_332a && s[13] == 0x6846_2f5b && s[14] == 0x9d46_33e3 && s[15] == 0x0ccb_d357
    ensures var r := ColumnRound(s);
      r[0] == 0x5309_2109 && r[1] == 0x173e_75f4 && r[2] == 0x5c8f_f6ca && r[3] == 0xc654_4418 &&
      r[4] == 0xaec0_e60d && r[5] == 0x94e4_0b06 && r[6] == 0x2603_7973 && r[7] == 0x9548_322e &&
      r[8] == 0x7d95_5293 && r[9] == 0x80bc_117b && r[10] == 0x2003_86a6 && r[11] == 0x341f_dc98 &&
      r[12] == 0x29a7_36a0 && r[13] == 0x8d11_4880 && r[14] == 0x62bb_f17e && r[15] == 0x37d0_f6f7
  {
    ColumnRoundSteps(s);
    var t1 := QuarterRound(s, 0, 4, 8, 12);
    Quarter(s, 0, 4, 8, 12);
    assert t1[4] == 0xaec0_e60d && t1[8] == 0x7d95_5293 && t1[12] == 0x29a7_36a0 && t1[0] == 0x5309_2109;
    var t2 := QuarterRound(t1, 5, 9, 13, 1);
    Quarter(t1, 5, 9, 13, 1);
    assert t2[9] == 0x80bc_117b && t2[13] == 0x8d11_4880 && t2[1] == 0x173e_75f4 && t2[5] == 0x94e4_0b06;
    var t3 := QuarterRound(t2, 10, 14, 2, 6);
    Quarter(t2, 10, 14, 2, 6);
    assert t3[14] == 0x62bb_f17e && t3[2] == 0x5c8f_f6ca && t3[6] == 0x2603_7973 && t3[10] == 0x2003_86a6;
    var t4 := QuarterRound(t3, 15, 3, 7, 11);
    Quarter(t3, 15, 3, 7, 11);
    assert t4[3] == 0xc654_4418 && t4[7] == 0x9548_322e && t4[11] == 0x341f_dc98 && t4[15] == 0x37d0_f6f7;
  }

  /** The row round of double round 1 of block 0. */
  lemma B0Row1(s: seq<bv32>)
    requires IsBlock(s)
    requires s[0] == 0x5309_2109 && s[1] == 0x173e_75f4 && s[2] == 0x5c8f_f6ca && s[3] == 0xc654_4418 &&
      s[4] == 0xaec0_e60d && s[5] == 0x94e4_0b06 && s[6] == 0x2603_7973 && s[7] == 0x9548_322e &&
      s[8] == 0x7d95_5293 && s[9] == 0x80bc_117b && s[10] == 0x2003_86a6 && s[11] == 0x341f_dc98 &&
      s[12] == 0x29a7_36a0 && s[13] == 0x8d11_4880 && s[14] == 0x62bb_f17e && s[15] == 0x37d0_f6f7
    ensures var r := RowRound(s);
      r[0] == 0x0bbb_9789 && r[1] == 0xb98c_e578 && r[2] == 0x7082_f4d3 && r[3] == 0x3d1d_2159 &&
      r[4] == 0xc041_25ea && r[5] == 0x307f_a704 && r[6] == 0xf47b_f0d2 && r[7] == 0x2abf_833c &&
      r[8] == 0xd330_8f84 && r[9] == 0x0bc5_969b && r[10] == 0xb87c_fd7e && r[11] == 0x6bd3_cc48 &&
      r[12] == 0x6fd3_0c6d && r[13] == 0xc517_81cf && r[14] == 0x337c_77e3 && r[15] == 0xd11b_14b8
  {
    RowRoundSteps(s);
    var t1 := QuarterRound(s, 0, 1, 2, 3);
    Quarter(s, 0, 1, 2, 3);
    assert t1[1] == 0xb98c_e578 && t1[2] == 0x7082_f4d3 && t1[3] == 0x3d1d_2159 && t1[0] == 0x0bbb_9789;
    var t2 := QuarterRound(t1, 5, 6, 7, 4);
    Quarter(t1, 5, 6, 7, 4);
    assert t2[6] == 0xf47b_f0d2 && t2[7] == 0x2abf_833c && t2[4] == 0xc041_25ea && t2[5] == 0x307f_a704;
    var t3 := QuarterRound(t2, 10, 11, 8, 9);
    Quarter(t2, 10, 11, 8, 9);
    assert t3[11] == 0x6bd3_cc48 && t3[8] == 0xd330_8f84 && t3[9] == 0x0bc5_969b && t3[10] == 0xb87c_fd7e;
    var t4 := QuarterRound(t3, 15, 12, 13, 14);
    Quarter(t3, 15, 12, 13, 14);
    assert t4[12] == 0x6fd3_0c6d && t4[13] == 0xc517_81cf && t4[14] == 0x337c_77e3 && t4[15] == 0xd11b_14b8;
  }

  /** The column round of double round 2 of block 0. */
  lemma B0Col2(s: seq<bv32>)
    requires IsBlock(s)
    requires s[0] == 0x0bbb_9789 && s[1] == 0xb98c_e578 && s[2] == 0x7082_f4d3 && s[3] == 0x3d1d_2159 &&
      s[4] == 0xc041_25ea && s[5] == 0x307f_a704 && s[6] == 0xf47b_f0d2 && s[7] == 0x2abf_833c &&
      s[8] == 0xd330_8f84 && s[9] == 0x0bc5_969b && s[10] == 0xb87c_fd7e && s[11] == 0x6bd3_cc48 &&
      s[12] == 0x6fd3_0c6d && s[13] == 0xc517_81cf && s[14] == 0x337c_77e3 && s[15] == 0xd11b_14b8
    ensures var r := ColumnRound(s);
      r[0] == 0x5cff_c068 && r[1] == 0x3858_df59 && r[2] == 0x6038_92dc && r[3] == 0x4a6d_a147 &&
      r[4] == 0x0710_ded7 && r[5] == 0x244c_4881 && r[6] == 0x8a29_c53a && r[7] == 0x3bd4_7d0b &&
      r[8] == 0x4bdc_4fa1 && r[9] == 0x0d83_a8ee && r[10] == 0xd827_54f7 && r[11] == 0x2819_9c80 &&
      r[12] == 0xca1c_0630 && r[13] == 0xc388_65b3 && r[14] == 0x4f0b_5fb5 && r[15] == 0xb736_9b00
  {
    ColumnRoundSteps(s);
    var t1 := QuarterRound(s, 0, 4, 8, 12);
    Quarter(s, 0, 4, 8, 12);
    assert t1[4] == 0x0710_ded7 && t1[8] == 0x4bdc_4fa1 && t1[12] == 0xca1c_0630 && t1[0] == 0x5cff_c068;
    var t2 := QuarterRound(t1, 5, 9, 13, 1);
    Quarter(t1, 5, 9, 13, 1);
    assert t2[9] == 0x0d83_a8ee && t2[13] == 0xc388_65b3 && t2[1] == 0x3858_df59 && t2[5] == 0x244c_4881;
    var t3 := QuarterRound(t2, 10, 14, 2, 6);
    Quarter(t2, 10, 14, 2, 6);
    assert t3[14] == 0x4f0b_5fb5 && t3[2] == 0x6038_92dc && t3[6] == 0x8a29_c53a && t3[10] == 0xd827_54f7;
    var t4 := QuarterRound(t3, 15, 3, 7, 11);
    Quarter(t3, 15, 3, 7, 11);
    assert t4[3] == 0x4a6d_a147 && t4[7] == 0x3bd4_7d0b && t4[11] == 0x2819_9c80 && t4[15] == 0xb736_9b00;
  }

  /** The row round of double round 2 of block 0. */
  lemma B0Row2(s: seq<bv32>)
    requires IsBlock(s)
    requires s[0] == 0x5cff_c068 && s[1] == 0x3858_df59 && s[2] == 0x6038_92dc && s[3] == 0x4a6d_a147 &&
      s[4] == 0x0710_ded7 && s[5] == 0x244c_4881 && s[6] == 0x8a29_c53a && s[7] == 0x3bd4_7d0b &&
      s[8] == 0x4bdc_4fa1 && s[9] == 0x0d83_a8ee && s[10] == 0xd827_54f7 && s[11] == 0x2819_9c80 &&
      s[12] == 0xca1c_0630 && s[13] == 0xc388_65b3 && s[14] == 0x4f0b_5fb5 && s[15] == 0xb736_9b00
    ensures var r := RowRound(s);
      r[0] == 0xaa7f_9549 && r[1] == 0x8ee8_088a && r[2] == 0xafa9_770b && r[3] == 0x659f_0695 &&
      r[4] == 0x37c9_d5b9 && r[5] == 0xe905_f282 && r[6] == 0x24ba_692f && r[7] == 0x36b7_1d99 &&
      r[8] == 0x565a_9c0a && r[9] == 0x4ccc_2296 && r[10] == 0x22a5_d86d && r[11] == 0xfd67_6e72 &&
      r[12] == 0xeae1_5cb3 && r[13] == 0xec67_02f7 && r[14] == 0x44fe_055c && r[15] == 0x967a_5e94
  {
    RowRoundSteps(s);
    var t1 := QuarterRound(s, 0, 1, 2, 3);
    Quarter(s, 0, 1, 2, 3);
    assert t1[1] == 0x8ee8_088a && t1[2] == 0xafa9_770b && t1[3] == 0x659f_0695 && t1[0] == 0xaa7f_9549;
    var t2 := QuarterRound(t1, 5, 6, 7, 4);
    Quarter(t1, 5, 6, 7, 4);
    assert t2[6] == 0x24ba_692f && t2[7] == 0x36b7_1d99 && t2[4] == 0x37c9_d5b9 && t2[5] == 0xe905_f282;
    var t3 := QuarterRound(t2, 10, 11, 8, 9);
    Quarter(t2, 10, 11, 8, 9);
    assert t3[11] == 0xfd67_6e72 && t3[8] == 0x565a_9c0a && t3[9] == 0x4ccc_2296 && t3[10] == 0x22a5_d86d;
    var t4 := QuarterRound(t3, 15, 12, 13, 14);
    Quarter(t3, 15, 12, 13, 14);
    assert t4[12] == 0xeae1_5cb3 && t4[13] == 0xec67_02f7 && t4[14] == 0x44fe_055c && t4[15] == 0x967a_5e94;
  }

  /** The column round of double round 3 of block 0. */
  lemma B0Col3(s: seq<bv32>)
    requires IsBlock(s)
    requires s[0] == 0xaa7f_9549 && s[1] == 0x8ee8_088a && s[2] == 0xafa9_770b && s[3] == 0x659f_0695 &&
      s[4] == 0x37c9_d5b9 && s[5] == 0xe905_f282 && s[6] == 0x24ba_692f && s[7] == 0x36b7_1d99 &&
      s[8] == 0x565a_9c0a && s[9] == 0x4ccc_2296 && s[10] == 0x22a5_d86d && s[11] == 0xfd67_6e72 &&
      s[12] == 0xeae1_5cb3 && s[13] == 0xec67_02f7 && s[14] == 0x44fe_055c && s[15] == 0x967a_5e94
    ensures var r := ColumnRound(s);
      r[0] == 0x94bc_1650 && r[1] == 0xeea3_cf25 && r[2] == 0xa6ee_af24 && r[3] == 0x9579_85dc &&
      r[4] == 0x87b1_2bf3 && r[5] == 0x5a5c_3536 && r[6] == 0x8bee_1a56 && r[7] == 0xd17f_fdce &&
      r[8] == 0x37d8_e46e && r[9] == 0xba31_a4ad && r[10] == 0x074d_131e && r[11] == 0xcd12_22ad &&
      r[12] == 0xa8ed_6b42 && r[13] == 0x8349_5db1 && r[14] == 0xf4de_cb7f && r[15] == 0x1794_24dc
  {
    ColumnRoundSteps(s);
    var t1 := QuarterRound(s, 0, 4, 8, 12);
    Quarter(s, 0, 4, 8, 12);
    assert t1[4] == 0x87b1_2bf3 && t1[8] == 0x37d8_e46e && t1[12] == 0xa8ed_6b42 && t1[0] == 0x94bc_1650;
    var t2 := QuarterRound(t1, 5, 9, 13, 1);
    Quarter(t1, 5, 9, 13, 1);
    assert t2[9] == 0xba31_a4ad && t2[13] == 0x8349_5db1 && t2[1] == 0xeea3_cf25 && t2[5] == 0x5a5c_3536;
    var t3 := QuarterRound(t2, 10, 14, 2, 6);
    Quarter(t2, 10, 14, 2, 6);
    assert t3[14] == 0xf4de_cb7f && t3[2] == 0xa6ee_af24 && t3[6] == 0x8bee_1a56 && t3[10] == 0x074d_131e;
    var t4 := QuarterRound(t3, 15, 3, 7, 11);
    Quarter(t3, 15, 3, 7, 11);
    assert t4[3] == 0x9579_85dc && t4[7] == 0xd17f_fdce && t4[11] == 0xcd12_22ad && t4[15] == 0x1794_24dc;
  }

  /** The row round of double round 3 of block 0. */
  lemma B0Row3(s: seq<bv32>)
    requires IsBlock(s)
    requires s[0] == 0x94bc_1650 && s[1] == 0xeea3_cf25 && s[2] == 0xa6ee_af24 && s[3] == 0x9579_85dc &&
      s[4] == 0x87b1_2bf3 && s[5] == 0x5a5c_3536 && s[6] == 0x8bee_1a56 && s[7] == 0xd17f_fdce &&
      s[8] == 0x37d8_e46e && s[9] == 0xba31_a4ad && s[10] == 0x074d_131e && s[11] == 0xcd12_22ad &&
      s[12] == 0xa8ed_6b42 && s[13] == 0x8349_5db1 && s[14] == 0xf4de_cb7f && s[15] == 0x1794_24dc
    ensures var r := RowRound(s);
      r[0] == 0x8829_7d4c && r[1] == 0xf46d_d930 && r[2] == 0xf531_ae36 && r[3] == 0x6595_58ef &&
      r[4] == 0x5d24_2db9 && r[5] == 0x94b4_3d47 && r[6] == 0x8d5e_8ea7 && r[7] == 0xa4f8_4601 &&
      r[8] == 0x1a6c_329d && r[9] == 0x050c_f53b && r[10] == 0x982d_6efa && r[11] == 0x7249_c74d &&
      r[12] == 0x9195_46c4 && r[13] == 0xd19e_1ce3 && r[14] == 0x98aa_2719 && r[15] == 0x1865_8dfd
  {
    RowRoundSteps(s);
    var t1 := QuarterRound(s, 0, 1, 2, 3);
    Quarter(s, 0, 1, 2, 3);
    assert t1[1] == 0xf46d_d930 && t1[2] == 0xf531_ae36 && t1[3] == 0x6595_58ef && t1[0] == 0x8829_7d4c;
    var t2 := QuarterRound(t1, 5, 6, 7, 4);
    Quarter(t1, 5, 6, 7, 4);
    assert t2[6] == 0x8d5e_8ea7 && t2[7] == 0xa4f8_4601 && t2[4] == 0x5d24_2db9 && t2[5] == 0x94b4_3d47;
    var t3 := QuarterRound(t2, 10, 11, 8, 9);
    Quarter(t2, 10, 11, 8, 9);
    assert t3[11] == 0x7249_c74d && t3[8] == 0x1a6c_329d && t3[9] == 0x050c_f53b && t3[10] == 0x982d_6efa;
    var t4 := QuarterRound(t3, 15, 12, 13, 14);
    Quarter(t3, 15, 12, 13, 14);
    assert t4[12] == 0x9195_46c4 && t4[13] == 0xd19e_1ce3 && t4[14] == 0x98aa_2719 && t4[15] == 0x1865_8dfd;
  }

  /** The column round of double round 4 of block 0. */
  lemma B0Col4(s: seq<bv32>)
    requires IsBlock(s)
    requires s[0] == 0x8829_7d4c && s[1] == 0xf46d_d930 && s[2] == 0xf531_ae36 && s[3] == 0x6595_58ef &&
      s[4] == 0x5d24_2db9 && s[5] == 0x94b4_3d47 && s[6] == 0x8d5e_8ea7 && s[7] == 0xa4f8_4601 &&
      s[8] == 0x1a6c_329d && s[9] == 0x050c_f53b && s[10] == 0x982d_6efa && s[11] == 0x7249_c74d &&
      s[12] == 0x9195_46c4 && s[13] == 0xd19e_1ce3 && s[14] == 0x98aa_2719 && s[15] == 0x1865_8dfd
    ensures var r := ColumnRound(s);
      r[0] == 0x72e4_fcbe && r[1] == 0x3f9b_fe81 && r[2] == 0xf1fc_a5dd && r[3] == 0x323f_fdaa &&
      r[4] == 0x8246_25b5 && r[5] == 0xa87b_99cd && r[6] == 0xbef3_874d && r[7] == 0xefef_0894 &&
      r[8] == 0xc52a_3089 && r[9] == 0x9407_ceff && r[10] == 0x2c87_ad3a && r[11] == 0x928e_0308 &&
      r[12] == 0x9b52_8e2a && r[13] == 0xa986_90b2 && r[14] == 0x5d54_f78b && r[15] == 0x3617_8409
  {
    ColumnRoundSteps(s);
    var t1 := QuarterRound(s, 0, 4, 8, 12);
    Quarter(s, 0, 4, 8, 12);
    assert t1[4] == 0x8246_25b5 && t1[8] == 0xc52a_3089 && t1[12] == 0x9b52_8e2a && t1[0] == 0x72e4_fcbe;
    var t2 := QuarterRound(t1, 5, 9, 13, 1);
    Quarter(t1, 5, 9, 13, 1);
    assert t2[9] == 0x9407_ceff && t2[13] == 0xa986_90b2 && t2[1] == 0x3f9b_fe81 && t2[5] == 0xa87b_99cd;
    var t3 := QuarterRound(t2, 10, 14, 2, 6);
    Quarter(t2, 10, 14, 2, 6);
    assert t3[14] == 0x5d54_f78b && t3[2] == 0xf1fc_a5dd && t3[6] == 0xbef3_874d && t3[10] == 0x2c87_ad3a;
    var t4 := QuarterRound(t3, 15, 3, 7, 11);
    Quarter(t3, 15, 3, 7, 11);
    assert t4[3] == 0x323f_fdaa && t4[7] == 0xefef_0894 && t4[11] == 0x928e_0308 && t4[15] == 0x3617_8409;
  }

  /** The row round of double round 4 of block 0. */
  lemma B0Row4(s: seq<bv32>)
    requires IsBlock(s)
    requires s[0] == 0x72e4_fcbe && s[1] == 0x3f9b_fe81 && s[2] == 0xf1fc_a5dd && s[3] == 0x323f_fdaa &&
      s[4] == 0x8246_25b5 && s[5] == 0xa87b_99cd && s[6] == 0xbef3_874d && s[7] == 0xefef_0894 &&
      s[8] == 0xc52a_3089 && s[9] == 0x9407_ceff && s[10] == 0x2c87_ad3a && s[11] == 0x928e_0308 &&
      s[12] == 0x9b52_8e2a && s[13] == 0xa986_90b2 && s[14] == 0x5d54_f78b && s[15] == 0x3617_8409
    ensures var r := RowRound(s);
      r[0] == 0xe813_8728 && r[1] == 0xade6_cad3 && r[2] == 0x6673_879c && r[3] == 0x7872_1f21 &&
      r[4] == 0xf378_0a7e && r[5] == 0x9025_d750 && r[6] == 0xde2c_4658 && r[7] == 0xa02f_4399 &&
      r[8] == 0xaab0_748a && r[9] == 0x8689_8103 && r[10] == 0xfab3_69dd && r[11] == 0xd530_1fe8 &&
      r[12] == 0x2d6f_4463 && r[13] == 0xa416_4875 && r[14] == 0xeccf_edbb && r[15] == 0xeed5_c791
  {
    RowRoundSteps(s);
    var t1 := QuarterRound(s, 0, 1, 2, 3);
    Quarter(s, 0, 1, 2, 3);
    assert t1[1] == 0xade6_cad3 && t1[2] == 0x6673_879c && t1[3] == 0x7872_1f21 && t1[0] == 0xe813_8728;
    var t2 := QuarterRound(t1, 5, 6, 7, 4);
    Quarter(t1, 5, 6, 7, 4);
    assert t2[6] == 0xde2c_4658 && t2[7] == 0xa02f_4399 && t2[4] == 0xf378_0a7e && t2[5] == 0x9025_d750;
    var t3 := QuarterRound(t2, 10, 11, 8, 9);
    Quarter(t2, 10, 11, 8, 9);
    assert t3[11] == 0xd530_1fe8 && t3[8] == 0xaab0_748a && t3[9] == 0x8689_8103 && t3[10] == 0xfab3_69dd;
    var t4 := QuarterRound(t3, 15, 12, 13, 14);
    Quarter(t3, 15, 12, 13, 14);
    assert t4[12] == 0x2d6f_4463 && t4[13] == 0xa416_4875 && t4[14] == 0xeccf_edbb && t4[15] == 0xeed5_c791;
  }

  /** The column round of double round 5 of block 0. */
  lemma B0Col5(s: seq<bv32>)
    requires IsBlock(s)
    requires s[0] == 0xe813_8728 && s[1] == 0xade6_cad3 && s[2] == 0x6673_879c && s[3] == 0x7872_1f21 &&
      s[4] == 0xf378_0a7e && s[5] == 0x9025_d750 && s[6] == 0xde2c_4658 && s[7] == 0xa02f_4399 &&
      s[8] == 0xaab0_748a && s[9] == 0x8689_8103 && s[10] == 0xfab3_69dd && s[11] == 0xd530_1fe8 &&
      s[12] == 0x2d6f_4463 && s[13] == 0xa416_4875 && s[14] == 0xeccf_edbb && s[15] == 0xeed5_c791
    ensures var r := ColumnRound(s);
      r[0] == 0x779a_5b75 && r[1] == 0xe9f8_d1e5 && r[2] == 0xf0b1_ef67 && r[3] == 0x7a81_a3c3 &&
      r[4] == 0x321d_cff4 && r[5] == 0x18c0_dc19 && r[6] == 0xe2fb_8821 && r[7] == 0x0ef9_eb4b &&
      r[8] == 0xc81e_4cbe && r[9] == 0x80d8_909c && r[10] == 0x2490_2768 && r[11] == 0xa4d1_cec7 &&
      r[12] == 0xaef9_1b24 && r[13] == 0x58d9_9054 && r[14] == 0x8317_f757 && r[15] == 0x069f_08bf
  {
    ColumnRoundSteps(s);
    var t1 := QuarterRound(s, 0, 4, 8, 12);
    Quarter(s, 0, 4, 8, 12);
    assert t1[4] == 0x321d_cff4 && t1[8] == 0xc81e_4cbe && t1[12] == 0xaef9_1b24 && t1[0] == 0x779a_5b75;
    var t2 := QuarterRound(t1, 5, 9, 13, 1);
    Quarter(t1, 5, 9, 13, 1);
    assert t2[9] == 0x80d8_909c && t2[13] == 0x58d9_9054 && t2[1] == 0xe9f8_d1e5 && t2[5] == 0x18c0_dc19;
    var t3 := QuarterRound(t2, 10, 14, 2, 6);
    Quarter(t2, 10, 14, 2, 6);
    assert t3[14] == 0x8317_f757 && t3[2] == 0xf0b1_ef67 && t3[6] == 0xe2fb_8821 && t3[10] == 0x2490_2768;
    var t4 := QuarterRound(t3, 15, 3, 7, 11);
    Quarter(t3, 15, 3, 7, 11);
    assert t4[3] == 0x7a81_a3c3 && t4[7] == 0x0ef9_eb4b && t4[11] == 0xa4d1_cec7 && t4[15] == 0x069f_08bf;
  }

  /** The row round of double round 5 of block 0. */
  lemma B0Row5(s: seq<bv32>)
    requires IsBlock(s)
    requires s[0] == 0x779a_5b75 && s[1] == 0xe9f8_d1e5 && s[2] == 0xf0b1_ef67 && s[3] == 0x7a81_a3c3 &&
      s[4] == 0x321d_cff4 && s[5] == 0x18c0_dc19 && s[6] == 0xe2fb_8821 && s[7] == 0x0ef9_eb4b &&
      s[8] == 0xc81e_4cbe && s[9] == 0x80d8_909c && s[10] == 0x2490_2768 && s[11] == 0xa4d1_cec7 &&
      s[12] == 0xaef9_1b24 && s[13] == 0x58d9_9054 && s[14] == 0x8317_f757 && s[15] == 0x069f_08bf
    ensures var r := RowRound(s);
      r[0] == 0x8ba1_6c4a && r[1] == 0xe407_4d9c && r[2] == 0xb3e3_cdd0 && r[3] == 0x19ec_313e &&
      r[4] == 0x79cc_a40f && r[5] == 0xc899_f3fc && r[6] == 0x8dad_8e84 && r[7] == 0xd22c_d007 &&
      r[8] == 0xf3f9_b6d4 && r[9] == 0x70b5_b00c && r[10] == 0xbf11_b5d5 && r[11] == 0x108d_cc95 &&
      r[12] == 0x7579_1060 && r[13] == 0x68eb_aeac && r[14] == 0x14f6_6c9b && r[15] == 0x6b82_ff37
  {
    RowRoundSteps(s);
    var t1 := QuarterRound(s, 0, 1, 2, 3);
    Quarter(s, 0, 1, 2, 3);
    assert t1[1] == 0xe407_4d9c && t1[2] == 0xb3e3_cdd0 && t1[3] == 0x19ec_313e && t1[0] == 0x8ba1_6c4a;
    var t2 := QuarterRound(t1, 5, 6, 7, 4);
    Quarter(t1, 5, 6, 7, 4);
    assert t2[6] == 0x8dad_8e84 && t2[7] == 0xd22c_d007 && t2[4] == 0x79cc_a40f && t2[5] == 0xc899_f3fc;
    var t3 := QuarterRound(t2, 10, 11, 8, 9);
    Quarter(t2, 10, 11, 8, 9);
    assert t3[11] == 0x108d_cc95 && t3[8] == 0xf3f9_b6d4 && t3[9] == 0x70b5_b00c && t3[10] == 0xbf11_b5d5;
    var t4 := QuarterRound(t3, 15, 12, 13, 14);
    Quarter(t3, 15, 12, 13, 14);
    assert t4[12] == 0x7579_1060 && t4[13] == 0x68eb_aeac && t4[14] == 0x14f6_6c9b && t4[15] == 0x6b82_ff37;
  }

  /** The column round of double round 6 of block 0. */
  lemma B0Col6(s: seq<bv32>)
    requires IsBlock(s)
    requires s[0] == 0x8ba1_6c4a && s[1] == 0xe407_4d9c && s[2] == 0xb3e3_cdd0 && s[3] == 0x19ec_313e &&
      s[4] == 0x79cc_a40f && s[5] == 0xc899_f3fc && s[6] == 0x8dad_8e84 && s[7] == 0xd22c_d007 &&
      s[8] == 0xf3f9_b6d4 && s[9] == 0x70b5_b00c && s[10] == 0xbf11_b5d5 && s[11] == 0x108d_cc95 &&
      s[12] == 0x7579_1060 && s[13] == 0x68eb_aeac && s[14] == 0x14f6_6c9b && s[15] == 0x6b82_ff37
    ensures var r := ColumnRound(s);
      r[0] == 0xcb4f_f7e8 && r[1] == 0xebfd_a758 && r[2] == 0x780f_e9c4 && r[3] == 0x1189_d700 &&
      r[4] == 0xf4f2_f10f && r[5] == 0x63cd_7bde && r[6] == 0x08ed_b6e8 && r[7] == 0xcb80_befd &&
      r[8] == 0xdb43_05d5 && r[9] == 0x2015_7c5a && r[10] == 0x3da3_b623 && r[11] == 0x4232_7734 &&
      r[12] == 0xcba5_8a66 && r[13] == 0x360b_037d && r[14] == 0x4b54_403d && r[15] == 0xb346_c9fb
  {
    ColumnRoundSteps(s);
    var t1 := QuarterRound(s, 0, 4, 8, 12);
    Quarter(s, 0, 4, 8, 12);
    assert t1[4] == 0xf4f2_f10f && t1[8] == 0xdb43_05d5 && t1[12] == 0xcba5_8a66 && t1[0] == 0xcb4f_f7e8;
    var t2 := QuarterRound(t1, 5, 9, 13, 1);
    Quarter(t1, 5, 9, 13, 1);
    assert t2[9] == 0x2015_7c5a && t2[13] == 0x360b_037d && t2[1] == 0xebfd_a758 && t2[5] == 0x63cd_7bde;
    var t3 := QuarterRound(t2, 10, 14, 2, 6);
    Quarter(t2, 10, 14, 2, 6);
    assert t3[14] == 0x4b54_403d && t3[2] == 0x780f_e9c4 && t3[6] == 0x08ed_b6e8 && t3[10] == 0x3da3_b623;
    var t4 := QuarterRound(t3, 15, 3, 7, 11);
    Quarter(t3, 15, 3, 7, 11);
    assert t4[3] == 0x1189_d700 && t4[7] == 0xcb80_befd && t4[11] == 0x4232_7734 && t4[15] == 0xb346_c9fb;
  }

  /** The row round of double round 6 of block 0. */
  lemma B0Row6(s: seq<bv32>)
    requires IsBlock(s)
    requires s[0] == 0xcb4f_f7e8 && s[1] == 0xebfd_a758 && s[2] == 0x780f_e9c4 && s[3] == 0x1189_d700 &&
      s[4] == 0xf4f2_f10f && s[5] == 0x63cd_7bde && s[6] == 0x08ed_b6e8 && s[7] == 0xcb80_befd &&
      s[8] == 0xdb43_05d5 && s[9] == 0x2015_7c5a && s[10] == 0x3da3_b623 && s[11] == 0x4232_7734 &&
      s[12] == 0xcba5_8a66 && s[13] == 0x360b_037d && s[14] == 0x4b54_403d && s[15] == 0xb346_c9fb
    ensures var r := RowRound(s);
      r[0] == 0x5097_3f3b && r[1] == 0x871a_d336 && r[2] == 0xad99_d560 && r[3] == 0x849b_1196 &&
      r[4] == 0x6387_f155 && r[5] == 0xd12a_8ddd && r[6] == 0x68db_c044 && r[7] == 0x99f8_fb64 &&
      r[8] == 0x46bc_7e6d && r[9] == 0xd915_80f6 && r[10] == 0xc02f_c964 && r[11] == 0x9eab_499a &&
      r[12] == 0x8620_9619 && r[13] == 0xf8cb_2b0f && r[14] == 0x3371_4fe0 && r[15] == 0x58fa_790a
  {
    RowRoundSteps(s);
    var t1 := QuarterRound(s, 0, 1, 2, 3);
    Quarter(s, 0, 1, 2, 3);
    assert t1[1] == 0x871a_d336 && t1[2] == 0xad99_d560 && t1[3] == 0x849b_1196 && t1[0] == 0x5097_3f3b;
    var t2 := QuarterRound(t1, 5, 6, 7, 4);
    Quarter(t1, 5, 6, 7, 4);
    assert t2[6] == 0x68db_c044 && t2[7] == 0x99f8_fb64 && t2[4] == 0x6387_f155 && t2[5] == 0xd12a_8ddd;
    var t3 := QuarterRound(t2, 10, 11, 8, 9);
    Quarter(t2, 10, 11, 8, 9);
    assert t3[11] == 0x9eab_499a && t3[8] == 0x46bc_7e6d && t3[9] == 0xd915_80f6 && t3[10] == 0xc02f_c964;
    var t4 := QuarterRound(t3, 15, 12, 13, 14);
    Quarter(t3, 15, 12, 13, 14);
    assert t4[12] == 0x8620_9619 && t4[13] == 0xf8cb_2b0f && t4[14] == 0x3371_4fe0 && t4[15] == 0x58fa_790a;
  }

  /** The column round of double round 7 of block 0. */
  lemma B0Col7(s: seq<bv32>)
    requires IsBlock(s)
    requires s[0] == 0x5097_3f3b && s[1] == 0x871a_d336 && s[2] == 0xad99_d560 && s[3] == 0x849b_1196 &&
      s[4] == 0x6387_f155 && s[5] == 0xd12a_8ddd && s[6] == 0x68db_c044 && s[7] == 0x99f8_fb64 &&
      s[8] == 0x46bc_7e6d && s[9] == 0xd915_80f6 && s[10] == 0xc02f_c964 && s[11] == 0x9eab_499a &&
      s[12] == 0x8620_9619 && s[13] == 0xf8cb_2b0f && s[14] == 0x3371_4fe0 && s[15] == 0x58fa_790a
    ensures var r := ColumnRound(s);
      r[0] == 0x810d_15c5 && r[1] == 0xcea4_df47 && r[2] == 0x6753_658d && r[3] == 0x567a_43ed &&
      r[4] == 0x386d_5b3e && r[5] == 0x5e5e_57f5 && r[6] == 0x48eb_e385 && r[7] == 0x7081_143a &&
      r[8] == 0x4f88_8d7f && r[9] == 0xfba5_095a && r[10] == 0xe465_0999 && r[11] == 0xf5af_b145 &&
      r[12] == 0x3b37_26e7 && r[13] == 0x67e5_4496 && r[14] == 0xb6b5_9bf4 && r[15] == 0x4d07_e1c9
  {
    ColumnRoundSteps(s);
    var t1 := QuarterRound(s, 0, 4, 8, 12);
    Quarter(s, 0, 4, 8, 12);
    assert t1[4] == 0x386d_5b3e && t1[8] == 0x4f88_8d7f && t1[12] == 0x3b37_26e7 && t1[0] == 0x810d_15c5;
    var t2 := QuarterRound(t1, 5, 9, 13, 1);
    Quarter(t1, 5, 9, 13, 1);
    assert t2[9] == 0xfba5_095a && t2[13] == 0x67e5_4496 && t2[1] == 0xcea4_df47 && t2[5] == 0x5e5e_57f5;
    var t3 := QuarterRound(t2, 10, 14, 2, 6);
    Quarter(t2, 10, 14, 2, 6);
    assert t3[14] == 0xb6b5_9bf4 && t3[2] == 0x6753_658d && t3[6] == 0x48eb_e385 && t3[10] == 0xe465_0999;
    var t4 := QuarterRound(t3, 15, 3, 7, 11);
    Quarter(t3, 15, 3, 7, 11);
    assert t4[3] == 0x567a_43ed && t4[7] == 0x7081_143a && t4[11] == 0xf5af_b145 && t4[15] == 0x4d07_e1c9;
  }

  /** The row round of double round 7 of block 0. */
  lemma B0Row7(s: seq<bv32>)
    requires IsBlock(s)
    requires s[0] == 0x810d_15c5 && s[1] == 0xcea4_df47 && s[2] == 0x6753_658d && s[3] == 0x567a_43ed &&
      s[4] == 0x386d_5b3e && s[5] == 0x5e5e_57f5 && s[6] == 0x48eb_e385 && s[7] == 0x7081_143a &&
      s[8] == 0x4f88_8d7f && s[9] == 0xfba5_095a && s[10] == 0xe465_0999 && s[11] == 0xf5af_b145 &&
      s[12] == 0x3b37_26e7 && s[13] == 0x67e5_4496 && s[14] == 0xb6b5_9bf4 && s[15] == 0x4d07_e1c9
    ensures var r := RowRound(s);
      r[0] == 0x3dc9_408c && r[1] == 0x0d08_062c && r[2] == 0x4d64_8691 && r[3] == 0xc7ed_e8a0 &&
      r[4] == 0x39c2_34f5 && r[5] == 0x7ed4_7c6a && r[6] == 0x2d32_7a4e && r[7] == 0x5125_932d &&
      r[8] == 0x582c_10d5 && r[9] == 0xa094_4040 && r[10] == 0xa032_ea98 && r[11] == 0xf0a6_c8b5 &&
      r[12] == 0xe589_f866 && r[13] == 0x4451_1af3 && r[14] == 0xd4de_becf && r[15] == 0x2a0f_8576
  {
    RowRoundSteps(s);
    var t1 := QuarterRound(s, 0, 1, 2, 3);
    Quarter(s, 0, 1, 2, 3);
    assert t1[1] == 0x0d08_062c && t1[2] == 0x4d64_8691 && t1[3] == 0xc7ed_e8a0 && t1[0] == 0x3dc9_408c;
    var t2 := QuarterRound(t1, 5, 6, 7, 4);
    Quarter(t1, 5, 6, 7, 4);
    assert t2[6] == 0x2d32_7a4e && t2[7] == 0x5125_932d && t2[4] == 0x39c2_34f5 && t2[5] == 0x7ed4_7c6a;
    var t3 := QuarterRound(t2, 10, 11, 8, 9);
    Quarter(t2, 10, 11, 8, 9);
    assert t3[11] == 0xf0a6_c8b5 && t3[8] == 0x582c_10d5 && t3[9] == 0xa094_4040 && t3[10] == 0xa032_ea98;
    var t4 := QuarterRound(t3, 15, 12, 13, 14);
    Quarter(t3, 15, 12, 13, 14);
    assert t4[12] == 0xe589_f866 && t4[13] == 0x4451_1af3 && t4[14] == 0xd4de_becf && t4[15] == 0x2a0f_8576;
  }

  /** The column round of double round 8 of block 0. */
  lemma B0Col8(s: seq<bv32>)
    requires IsBlock(s)
    requires s[0] == 0x3dc9_408c && s[1] == 0x0d08_062c && s[2] == 0x4d64_8691 && s[3] == 0xc7ed_e8a0 &&
      s[4] == 0x39c2_34f5 && s[5] == 0x7ed4_7c6a && s[6] == 0x2d32_7a4e && s[7] == 0x5125_932d &&
      s[8] == 0x582c_10d5 && s[9] == 0xa094_4040 && s[10] == 0xa032_ea98 && s[11] == 0xf0a6_c8b5 &&
      s[12] == 0xe589_f866 && s[13] == 0x4451_1af3 && s[14] == 0xd4de_becf && s[15] == 0x2a0f_8576
    ensures var r := ColumnRound(s);
      r[0] == 0xca49_26f8 && r[1] == 0x9705_aaea && r[2] == 0x7214_049c && r[3] == 0x9cca_fd2d &&
      r[4] == 0x905e_4de4 && r[5] == 0xbf9e_c5ff && r[6] == 0x377a_c15e && r[7] == 0xe420_d4a0 &&
      r[8] == 0x1730_f149 && r[9] == 0x4ed5_0b05 && r[10] == 0xb7d8_4ca3 && r[11] == 0x8a9f_78a8 &&
      r[12] == 0x026c_4c97 && r[13] == 0x175f_c568 && r[14] == 0x666c_cda9 && r[15] == 0x1f2e_3e77
  {
    ColumnRoundSteps(s);
    var t1 := QuarterRound(s, 0, 4, 8, 12);
    Quarter(s, 0, 4, 8, 12);
    assert t1[4] == 0x905e_4de4 && t1[8] == 0x1730_f149 && t1[12] == 0x026c_4c97 && t1[0] == 0xca49_26f8;
    var t2 := QuarterRound(t1, 5, 9, 13, 1);
    Quarter(t1, 5, 9, 13, 1);
    assert t2[9] == 0x4ed5_0b05 && t2[13] == 0x175f_c568 && t2[1] == 0x9705_aaea && t2[5] == 0xbf9e_c5ff;
    var t3 := QuarterRound(t2, 10, 14, 2, 6);
    Quarter(t2, 10, 14, 2, 6);
    assert t3[14] == 0x666c_cda9 && t3[2] == 0x7214_049c && t3[6] == 0x377a_c15e && t3[10] == 0xb7d8_4ca3;
    var t4 := QuarterRound(t3, 15, 3, 7, 11);
    Quarter(t3, 15, 3, 7, 11);
    assert t4[3] == 0x9cca_fd2d && t4[7] == 0xe420_d4a0 && t4[11] == 0x8a9f_78a8 && t4[15] == 0x1f2e_3e77;
  }

  /** The row round of double round 8 of block 0. */
  lemma B0Row8(s: seq<bv32>)
    requires IsBlock(s)
    requires s[0] == 0xca49_26f8 && s[1] == 0x9705_aaea && s[2] == 0x7214_049c && s[3] == 0x9cca_fd2d &&
      s[4] == 0x905e_4de4 && s[5] == 0xbf9e_c5ff && s[6] == 0x377a_c15e && s[7] == 0xe420_d4a0 &&
      s[8] == 0x1730_f149 && s[9] == 0x4ed5_0b05 && s[10] == 0xb7d8_4ca3 && s[11] == 0x8a9f_78a8 &&
      s[12] == 0x026c_4c97 && s[13] == 0x175f_c568 && s[14] == 0x666c_cda9 && s[15] == 0x1f2e_3e77
    ensures var r := RowRound(s);
      r[0] == 0x7057_0d50 && r[1] == 0x1d17_b859 && r[2] == 0xb3aa_a752 && r[3] == 0xd73f_8735 &&
      r[4] == 0x9a8b_dfdc && r[5] == 0xa9a3_4c9b && r[6] == 0xc9f3_30f9 && r[7] == 0xc7cd_25b3 &&
      r[8] == 0x0ec2_6c61 && r[9] == 0xadf4_965b && r[10] == 0xbd2a_be7f && r[11] == 0xdc34_acab &&
      r[12] == 0xcfea_5cd5 && r[13] == 0x2669_5cb6 && r[14] == 0x115d_b363 && r[15] == 0x5f4a_e16b
  {
    RowRoundSteps(s);
    var t1 := QuarterRound(s, 0, 1, 2, 3);
    Quarter(s, 0, 1, 2, 3);
    assert t1[1] == 0x1d17_b859 && t1[2] == 0xb3aa_a752 && t1[3] == 0xd73f_8735 && t1[0] == 0x7057_0d50;
    var t2 := QuarterRound(t1, 5, 6, 7, 4);
    Quarter(t1, 5, 6, 7, 4);
    assert t2[6] == 0xc9f3_30f9 && t2[7] == 0xc7cd_25b3 && t2[4] == 0x9a8b_dfdc && t2[5] == 0xa9a3_4c9b;
    var t3 := QuarterRound(t2, 10, 11, 8, 9);
    Quarter(t2, 10, 11, 8, 9);
    assert t3[11] == 0xdc34_acab && t3[8] == 0x0ec2_6c61 && t3[9] == 0xadf4_965b && t3[10] == 0xbd2a_be7f;
    var t4 := QuarterRound(t3, 15, 12, 13, 14);
    Quarter(t3, 15, 12, 13, 14);
    assert t4[12] == 0xcfea_5cd5 && t4[13] == 0x2669_5cb6 && t4[14] == 0x115d_b363 && t4[15] == 0x5f4a_e16b;
  }

  /** The column round of double round 9 of block 0. */
  lemma B0Col9(s: seq<bv32>)
    requires IsBlock(s)
    requires s[0] == 0x7057_0d50 && s[1] == 0x1d17_b859 && s[2] == 0xb3aa_a752 && s[3] == 0xd73f_8735 &&
      s[4] == 0x9a8b_dfdc && s[5] == 0xa9a3_4c9b && s[6] == 0xc9f3_30f9 && s[7] == 0xc7cd_25b3 &&
      s[8] == 0x0ec2_6c61 && s[9] == 0xadf4_965b && s[10] == 0xbd2a_be7f && s[11] == 0xdc34_acab &&
      s[12] == 0xcfea_5cd5 && s[13] == 0x2669_5cb6 && s[14] == 0x115d_b363 && s[15] == 0x5f4a_e16b
    ensures var r := ColumnRound(s);
      r[0] == 0x9d0b_f800 && r[1] == 0xe1e0_f808 && r[2] == 0x1a31_99eb && r[3] == 0x68f8_8c28 &&
      r[4] == 0xba3e_cd7c && r[5] == 0x6788_837c && r[6] == 0xbcd2_47c2 && r[7] == 0x4116_0223 &&
      r[8] == 0x2577_f434 && r[9] == 0xf076_ec38 && r[10] == 0x3b9d_e270 && r[11] == 0x0dfd_d9ea &&
      r[12] == 0x17dc_4723 && r[13] == 0x1218_fb82 && r[14] == 0x9faa_0f20 && r[15] == 0x2f7f_dd24
  {
    ColumnRoundSteps(s);
    var t1 := QuarterRound(s, 0, 4, 8, 12);
    Quarter(s, 0, 4, 8, 12);
    assert t1[4] == 0xba3e_cd7c && t1[8] == 0x2577_f434 && t1[12] == 0x17dc_4723 && t1[0] == 0x9d0b_f800;
    var t2 := QuarterRound(t1, 5, 9, 13, 1);
    Quarter(t1, 5, 9, 13, 1);
    assert t2[9] == 0xf076_ec38 && t2[13] == 0x1218_fb82 && t2[1] == 0xe1e0_f808 && t2[5] == 0x6788_837c;
    var t3 := QuarterRound(t2, 10, 14, 2, 6);
    Quarter(t2, 10, 14, 2, 6);
    assert t3[14] == 0x9faa_0f20 && t3[2] == 0x1a31_99eb && t3[6] == 0xbcd2_47c2 && t3[10] == 0x3b9d_e270;
    var t4 := QuarterRound(t3, 15, 3, 7, 11);
    Quarter(t3, 15, 3, 7, 11);
    assert t4[3] == 0x68f8_8c28 && t4[7] == 0x4116_0223 && t4[11] == 0x0dfd_d9ea && t4[15] == 0x2f7f_dd24;
  }

  /** The row round of double round 9 of block 0. */
  lemma B0Row9(s: seq<bv32>)
    requires IsBlock(s)
    requires s[0] == 0x9d0b_f800 && s[1] == 0xe1e0_f808 && s[2] == 0x1a31_99eb && s[3] == 0x68f8_8c28 &&
      s[4] == 0xba3e_cd7c && s[5] == 0x6788_837c && s[6] == 0xbcd2_47c2 && s[7] == 0x4116_0223 &&
      s[8] == 0x2577_f434 && s[9] == 0xf076_ec38 && s[10] == 0x3b9d_e270 && s[11] == 0x0dfd_d9ea &&
      s[12] == 0x17dc_4723 && s[13] == 0x1218_fb82 && s[14] == 0x9faa_0f20 && s[15] == 0x2f7f_dd24
    ensures var r := RowRound(s);
      r[0] == 0x7c1f_467e && r[1] == 0xe3a2_ec0b && r[2] == 0x47f9_8eea && r[3] == 0xe7a6_295b &&
      r[4] == 0xe151_3900 && r[5] == 0x053c_159b && r[6] == 0x5f7a_3bd2 && r[7] == 0x4468_9fad &&
      r[8] == 0x5597_2cb2 && r[9] == 0xc723_279e && r[10] == 0x6add_9099 && r[11] == 0x079a_8dfc &&
      r[12] == 0x832a_6544 && r[13] == 0x469c_2ae7 && r[14] == 0x4daf_7618 && r[15] == 0xac81_8c0a
  {
    RowRoundSteps(s);
    var t1 := QuarterRound(s, 0, 1, 2, 3);
    Quarter(s, 0, 1, 2, 3);
    assert t1[1] == 0xe3a2_ec0b && t1[2] == 0x47f9_8eea && t1[3] == 0xe7a6_295b && t1[0] == 0x7c1f_467e;
    var t2 := QuarterRound(t1, 5, 6, 7, 4);
    Quarter(t1, 5, 6, 7, 4);
    assert t2[6] == 0x5f7a_3bd2 && t2[7] == 0x4468_9fad && t2[4] == 0xe151_3900 && t2[5] == 0x053c_159b;
    var t3 := QuarterRound(t2, 10, 11, 8, 9);
    Quarter(t2, 10, 11, 8, 9);
    assert t3[11] == 0x079a_8dfc && t3[8] == 0x5597_2cb2 && t3[9] == 0xc723_279e && t3[10] == 0x6add_9099;
    var t4 := QuarterRound(t3, 15, 12, 13, 14);
    Quarter(t3, 15, 12, 13, 14);
    assert t4[12] == 0x832a_6544 && t4[13] == 0x469c_2ae7 && t4[14] == 0x4daf_7618 && t4[15] == 0xac81_8c0a;
  }

  /** The initial block of block number 0. */
  lemma B0Init()
    ensures var s := InitBlock(TestKey, 0, 0);
      s[0] == 0x6170_7865 && s[1] == 0x0000_0080 && s[2] == 0x0000_0000 && s[3] == 0x0000_0000 &&
      s[4] == 0x0000_0000 && s[5] == 0x3320_646e && s[6] == 0x0000_0000 && s[7] == 0x0000_0000 &&
      s[8] == 0x0000_0000 && s[9] == 0x0000_0000 && s[10] == 0x7962_2d32 && s[11] == 0x0000_0000 &&
      s[12] == 0x0000_0000 && s[13] == 0x0000_0000 && s[14] == 0x0000_0000 && s[15] == 0x6b20_6574
  {
  }

  /** Block 0 after 0 double rounds. */
  lemma B0After0()
    ensures var s := DoubleRounds(InitBlock(TestKey, 0, 0), 0);
      IsBlock(s) &&
      s[0] == 0x6170_7865 && s[1] == 0x0000_0080 && s[2] == 0x0000_0000 && s[3] == 0x0000_0000 &&
      s[4] == 0x0000_0000 && s[5] == 0x3320_646e && s[6] == 0x0000_0000 && s[7] == 0x0000_0000 &&
      s[8] == 0x0000_0000 && s[9] == 0x0000_0000 && s[10] == 0x7962_2d32 && s[11] == 0x0000_0000 &&
      s[12] == 0x0000_0000 && s[13] == 0x0000_0000 && s[14] == 0x0000_0000 && s[15] == 0x6b20_6574
  {
    B0Init();
  }

  /** Block 0 after 1 double rounds. */
  lemma B0After1()
    ensures var s := DoubleRounds(InitBlock(TestKey, 0, 0), 1);
      IsBlock(s) &&
      s[0] == 0x77c7_bdfb && s[1] == 0xbc01_144d && s[2] == 0x3e73_244d && s[3] == 0x1721_e57b &&
      s[4] == 0x93b8_74be && s[5] == 0x6d36_9a38 && s[6] == 0x5b0a_6e9a && s[7] == 0xd566_ed88 &&
      s[8] == 0x6cdd_42de && s[9] == 0x1b6b_53ef && s[10] == 0xe0f5_8ceb && s[11] == 0xbad7_17eb &&
      s[12] == 0xeeb3_332a && s[13] == 0x6846_2f5b && s[14] == 0x9d46_33e3 && s[15] == 0x0ccb_d357
  {
    B0After0();
    DoubleRoundsNext(InitBlock(TestKey, 0, 0), 0);
    B0Col0(DoubleRounds(InitBlock(TestKey, 0, 0), 0));
    B0Row0(ColumnRound(DoubleRounds(InitBlock(TestKey, 0, 0), 0)));
  }

  /** Block 0 after 2 double rounds. */
  lemma B0After2()
    ensures var s := DoubleRounds(InitBlock(TestKey, 0, 0), 2);
      IsBlock(s) &&
      s[0] == 0x0bbb_9789 && s[1] == 0xb98c_e578 && s[2] == 0x7082_f4d3 && s[3] == 0x3d1d_2159 &&
      s[4] == 0xc041_25ea && s[5] == 0x307f_a704 && s[6] == 0xf47b_f0d2 && s[7] == 0x2abf_833c &&
      s[8] == 0xd330_8f84 && s[9] == 0x0bc5_969b && s[10] == 0xb87c_fd7e && s[11] == 0x6bd3_cc48 &&
      s[12] == 0x6fd3_0c6d && s[13] == 0xc517_81cf && s[14] == 0x337c_77e3 && s[15] == 0xd11b_14b8
  {
    B0After1();
    DoubleRoundsNext(InitBlock(TestKey, 0, 0), 1);
    B0Col1(DoubleRounds(InitBlock(TestKey, 0, 0), 1));
    B0Row1(ColumnRound(DoubleRounds(InitBlock(TestKey, 0, 0), 1)));
  }

  /** Block 0 after 3 double rounds. */
  lemma B0After3()
    ensures var s := DoubleRounds(InitBlock(TestKey, 0, 0), 3);
      IsBlock(s) &&
      s[0] == 0xaa7f_9549 && s[1] == 0x8ee8_088a && s[2] == 0xafa9_770b && s[3] == 0x659f_0695 &&
      s[4] == 0x37c9_d5b9 && s[5] == 0xe905_f282 && s[6] == 0x24ba_692f && s[7] == 0x36b7_1d99 &&
      s[8] == 0x565a_9c0a && s[9] == 0x4ccc_2296 && s[10] == 0x22a5_d86d && s[11] == 0xfd67_6e72 &&
      s[12] == 0xeae1_5cb3 && s[13] == 0xec67_02f7 && s[14] == 0x44fe_055c && s[15] == 0x967a_5e94
  {
    B0After2();
    DoubleRoundsNext(InitBlock(TestKey, 0, 0), 2);
    B0Col2(DoubleRounds(InitBlock(TestKey, 0, 0), 2));
    B0Row2(ColumnRound(DoubleRounds(InitBlock(TestKey, 0, 0), 2)));
  }

  /** Block 0 after 4 double rounds. */
  lemma B0After4()
    ensures var s := DoubleRounds(InitBlock(TestKey, 0, 0), 4);
      IsBlock(s) &&
      s[0] == 0x8829_7d4c && s[1] == 0xf46d_d930 && s[2] == 0xf531_ae36 && s[3] == 0x6595_58ef &&
      s[4] == 0x5d24_2db9 && s[5] == 0x94b4_3d47 && s[6] == 0x8d5e_8ea7 && s[7] == 0xa4f8_4601 &&
      s[8] == 0x1a6c_329d && s[9] == 0x050c_f53b && s[10] == 0x982d_6efa && s[11] == 0x7249_c74d &&
      s[12] == 0x9195_46c4 && s[13] == 0xd19e_1ce3 && s[14] == 0x98aa_2719 && s[15] == 0x1865_8dfd
  {
    B0After3();
    DoubleRoundsNext(InitBlock(TestKey, 0, 0), 3);
    B0Col3(DoubleRounds(InitBlock(TestKey, 0, 0), 3));
    B0Row3(ColumnRound(DoubleRounds(InitBlock(TestKey, 0, 0), 3)));
  }

  /** Block 0 after 5 double rounds. */
  lemma B0After5()
    ensures var s := DoubleRounds(InitBlock(TestKey, 0, 0), 5);
      IsBlock(s) &&
      s[0] == 0xe813_8728 && s[1] == 0xade6_cad3 && s[2] == 0x6673_879c && s[3] == 0x7872_1f21 &&
      s[4] == 0xf378_0a7e && s[5] == 0x9025_d750 && s[6] == 0xde2c_4658 && s[7] == 0xa02f_4399 &&
      s[8] == 0xaab0_748a && s[9] == 0x8689_8103 && s[10] == 0xfab3_69dd && s[11] == 0xd530_1fe8 &&
      s[12] == 0x2d6f_4463 && s[13] == 0xa416_4875 && s[14] == 0xeccf_edbb && s[15] == 0xeed5_c791
  {
    B0After4();
    DoubleRoundsNext(InitBlock(TestKey, 0, 0), 4);
    B0Col4(DoubleRounds(InitBlock(TestKey, 0, 0), 4));
    B0Row4(ColumnRound(DoubleRounds(InitBlock(TestKey, 0, 0), 4)));
  }

  /** Block 0 after 6 double rounds. */
  lemma B0After6()
    ensures var s := DoubleRounds(InitBlock(TestKey, 0, 0), 6);
      IsBlock(s) &&
      s[0] == 0x8ba1_6c4a && s[1] == 0xe407_4d9c && s[2] == 0xb3e3_cdd0 && s[3] == 0x19ec_313e &&
      s[4] == 0x79cc_a40f && s[5] == 0xc899_f3fc && s[6] == 0x8dad_8e84 && s[7] == 0xd22c_d007 &&
      s[8] == 0xf3f9_b6d4 && s[9] == 0x70b5_b00c && s[10] == 0xbf11_b5d5 && s[11] == 0x108d_cc95 &&
      s[12] == 0x7579_1060 && s[13] == 0x68eb_aeac && s[14] == 0x14f6_6c9b && s[15] == 0x6b82_ff37
  {
    B0After5();
    DoubleRoundsNext(InitBlock(TestKey, 0, 0), 5);
    B0Col5(DoubleRounds(InitBlock(TestKey, 0, 0), 5));
    B0Row5(ColumnRound(DoubleRounds(InitBlock(TestKey, 0, 0), 5)));
  }

  /** Block 0 after 7 double rounds. */
  lemma B0After7()
    ensures var s := DoubleRounds(InitBlock(TestKey, 0, 0), 7);
      IsBlock(s) &&
      s[0] == 0x5097_3f3b && s[1] == 0x871a_d336 && s[2] == 0xad99_d560 && s[3] == 0x849b_1196 &&
      s[4] == 0x6387_f155 && s[5] == 0xd12a_8ddd && s[6] == 0x68db_c044 && s[7] == 0x99f8_fb64 &&
      s[8] == 0x46bc_7e6d && s[9] == 0xd915_80f6 && s[10] == 0xc02f_c964 && s[11] == 0x9eab_499a &&
      s[12] == 0x8620_9619 && s[13] == 0xf8cb_2b0f && s[14] == 0x3371_4fe0 && s[15] == 0x58fa_790a
  {
    B0After6();
    DoubleRoundsNext(InitBlock(TestKey, 0, 0), 6);
    B0Col6(DoubleRounds(InitBlock(TestKey, 0, 0), 6));
    B0Row6(ColumnRound(DoubleRounds(InitBlock(TestKey, 0, 0), 6)));
  }

  /** Block 0 after 8 double rounds. */
  lemma B0After8()
    ensures var s := DoubleRounds(InitBlock(TestKey, 0, 0), 8);
      IsBlock(s) &&
      s[0] == 0x3dc9_408c && s[1] == 0x0d08_062c && s[2] == 0x4d64_8691 && s[3] == 0xc7ed_e8a0 &&
      s[4] == 0x39c2_34f5 && s[5] == 0x7ed4_7c6a && s[6] == 0x2d32_7a4e && s[7] == 0x5125_932d &&
      s[8] == 0x582c_10d5 && s[9] == 0xa094_4040 && s[10] == 0xa032_ea98 && s[11] == 0xf0a6_c8b5 &&
      s[12] == 0xe589_f866 && s[13] == 0x4451_1af3 && s[14] == 0xd4de_becf && s[15] == 0x2a0f_8576
  {
    B0After7();
    DoubleRoundsNext(InitBlock(TestKey, 0, 0), 7);
    B0Col7(DoubleRounds(InitBlock(TestKey, 0, 0), 7));
    B0Row7(ColumnRound(DoubleRounds(InitBlock(TestKey, 0, 0), 7)));
  }

  /** Block 0 after 9 double rounds. */
  lemma B0After9()
    ensures var s := DoubleRounds(InitBlock(TestKey, 0, 0), 9);
      IsBlock(s) &&
      s[0] == 0x7057_0d50 && s[1] == 0x1d17_b859 && s[2] == 0xb3aa_a752 && s[3] == 0xd73f_8735 &&
      s[4] == 0x9a8b_dfdc && s[5] == 0xa9a3_4c9b && s[6] == 0xc9f3_30f9 && s[7] == 0xc7cd_25b3 &&
      s[8] == 0x0ec2_6c61 && s[9] == 0xadf4_965b && s[10] == 0xbd2a_be7f && s[11] == 0xdc34_acab &&
      s[12] == 0xcfea_5cd5 && s[13] == 0x2669_5cb6 && s[14] == 0x115d_b363 && s[15] == 0x5f4a_e16b
  {
    B0After8();
    DoubleRoundsNext(InitBlock(TestKey, 0, 0), 8);
    B0Col8(DoubleRounds(InitBlock(TestKey, 0, 0), 8));
    B0Row8(ColumnRound(DoubleRounds(InitBlock(TestKey, 0, 0), 8)));
  }

  /** Block 0 after 10 double rounds. */
  lemma B0After10()
    ensures var s := DoubleRounds(InitBlock(TestKey, 0, 0), 10);
      IsBlock(s) &&
      s[0] == 0x7c1f_467e && s[1] == 0xe3a2_ec0b && s[2] == 0x47f9_8eea && s[3] == 0xe7a6_295b &&
      s[4] == 0xe151_3900 && s[5] == 0x053c_159b && s[6] == 0x5f7a_3bd2 && s[7] == 0x4468_9fad &&
      s[8] == 0x5597_2cb2 && s[9] == 0xc723_279e && s[10] == 0x6add_9099 && s[11] == 0x079a_8dfc &&
      s[12] == 0x832a_6544 && s[13] == 0x469c_2ae7 && s[14] == 0x4daf_7618 && s[15] == 0xac81_8c0a
  {
    B0After9();
    DoubleRoundsNext(InitBlock(TestKey, 0, 0), 9);
    B0Col9(DoubleRounds(InitBlock(TestKey, 0, 0), 9));
    B0Row9(ColumnRound(DoubleRounds(InitBlock(TestKey, 0, 0), 9)));
  }

  /** Keystream block 0 of the stub program, word by word. */
  lemma KeystreamBlock0()
    ensures var k := Keystream(TestKey, 0, 0);
      k[0] == 0xdd8f_bee3 && k[1] == 0xe3a2_ec8b && k[2] == 0x47f9_8eea && k[3] == 0xe7a6_295b &&
      k[4] == 0xe151_3900 && k[5] == 0x385c_7a09 && k[6] == 0x5f7a_3bd2 && k[7] == 0x4468_9fad &&
      k[8] == 0x5597_2cb2 && k[9] == 0xc723_279e && k[10] == 0xe43f_bdcb && k[11] == 0x079a_8dfc &&
      k[12] == 0x832a_6544 && k[13] == 0x469c_2ae7 && k[14] == 0x4daf_7618 && k[15] == 0x17a1_f17e
  {
    B0Init();
    B0After10();
  }

  /** The byte swap of the sixteen keystream words of block 0. */
  lemma B0Swapped()
    ensures LittleEndian(0xdd8f_bee3) == 0xe3be_8fdd && LittleEndian(0xe3a2_ec8b) == 0x8bec_a2e3 &&
      LittleEndian(0x47f9_8eea) == 0xea8e_f947 && LittleEndian(0xe7a6_295b) == 0x5b29_a6e7 &&
      LittleEndian(0xe151_3900) == 0x0039_51e1 && LittleEndian(0x385c_7a09) == 0x097a_5c38 &&
      LittleEndian(0x5f7a_3bd2) == 0xd23b_7a5f && LittleEndian(0x4468_9fad) == 0xad9f_6844 &&
      LittleEndian(0x5597_2cb2) == 0xb22c_9755 && LittleEndian(0xc723_279e) == 0x9e27_23c7 &&
      LittleEndian(0xe43f_bdcb) == 0xcbbd_3fe4 && LittleEndian(0x079a_8dfc) == 0xfc8d_9a07 &&
      LittleEndian(0x832a_6544) == 0x4465_2a83 && LittleEndian(0x469c_2ae7) == 0xe72a_9c46 &&
      LittleEndian(0x4daf_7618) == 0x1876_af4d && LittleEndian(0x17a1_f17e) == 0x7ef1_a117
  {
  }

  /** The printed words of block 0: the lines e3be8fdd8beca2e3ea8ef9475b29a6e7, 003951e1097a5c38d23b7a5fad9f6844, b22c97559e2723c7cbbd3fe4fc8d9a07, 44652a83e72a9c461876af4d7ef1a117. */
  lemma PrintedBlock0()
    ensures var k := Keystream(TestKey, 0, 0);
      LittleEndian(k[0]) == 0xe3be_8fdd && LittleEndian(k[1]) == 0x8bec_a2e3 && LittleEndian(k[2]) == 0xea8e_f947 && LittleEndian(k[3]) == 0x5b29_a6e7 &&
      LittleEndian(k[4]) == 0x0039_51e1 && LittleEndian(k[5]) == 0x097a_5c38 && LittleEndian(k[6]) == 0xd23b_7a5f && LittleEndian(k[7]) == 0xad9f_6844 &&
      LittleEndian(k[8]) == 0xb22c_9755 && LittleEndian(k[9]) == 0x9e27_23c7 && LittleEndian(k[10]) == 0xcbbd_3fe4 && LittleEndian(k[11]) == 0xfc8d_9a07 &&
      LittleEndian(k[12]) == 0x4465_2a83 && LittleEndian(k[13]) == 0xe72a_9c46 && LittleEndian(k[14]) == 0x1876_af4d && LittleEndian(k[15]) == 0x7ef1_a117
  {
    KeystreamBlock0();
    B0Swapped();
  }

  /** The column round of double round 0 of block 3. */
  lemma B3Col0(s: seq<bv32>)
    requires IsBlock(s)
    requires s[0] == 0x6170_7865 && s[1] == 0x0000_0080 && s[2] == 0x0000_0000 && s[3] == 0x0000_0000 &&
      s[4] == 0x0000_0000 && s[5] == 0x3320_646e && s[6] == 0x0000_0000 && s[7] == 0x0000_0000 &&
      s[8] == 0x0000_0003 && s[9] == 0x0000_0000 && s[10] == 0x7962_2d32 && s[11] == 0x0000_0000 &&
      s[12] == 0x0000_0000 && s[13] == 0x0000_0000 && s[14] == 0x0000_0000 && s[15] == 0x6b20_6574
    ensures var r := ColumnRound(s);
      r[0] == 0xd0fa_ebad && r[1] == 0x30d3_e63d && r[2] == 0xf18c_dc54 && r[3] == 0x9032_ba35 &&
      r[4] == 0xb83c_32b0 && r[5] == 0xe42f_3e45 && r[6] == 0x6eb2_1454 && r[7] == 0xa63f_53f6 &&
      r[8] == 0x5956_2a30 && r[9] == 0x9032_7719 && r[10] == 0xbbc3_adc9 && r[11] == 0x41c5_66ce &&
      r[12] == 0x4b9c_0232 && r[13] == 0xa5b7_0f86 && r[14] == 0xb116_993c && r[15] == 0x8033_c566
  {
    ColumnRoundSteps(s);
    var t1 := QuarterRound(s, 0, 4, 8, 12);
    Quarter(s, 0, 4, 8, 12);
    assert t1[4] == 0xb83c_32b0 && t1[8] == 0x5956_2a30 && t1[12] == 0x4b9c_0232 && t1[0] == 0xd0fa_ebad;
    var t2 := QuarterRound(t1, 5, 9, 13, 1);
    Quarter(t1, 5, 9, 13, 1);
    assert t2[9] == 0x9032_7719 && t2[13] == 0xa5b7_0f86 && t2[1] == 0x30d3_e63d && t2[5] == 0xe42f_3e45;
    var t3 := QuarterRound(t2, 10, 14, 2, 6);
    Quarter(t2, 10, 14, 2, 6);
    assert t3[14] == 0xb116_993c && t3[2] == 0xf18c_dc54 && t3[6] == 0x6eb2_1454 && t3[10] == 0xbbc3_adc9;
    var t4 := QuarterRound(t3, 15, 3, 7, 11);
    Quarter(t3, 15, 3, 7, 11);
    assert t4[3] == 0x9032_ba35 && t4[7] == 0xa63f_53f6 && t4[11] == 0x41c5_66ce && t4[15] == 0x8033_c566;
  }

  /** The row round of double round 0 of block 3. */
  lemma B3Row0(s: seq<bv32>)
    requires IsBlock(s)
    requires s[0] == 0xd0fa_ebad && s[1] == 0x30d3_e63d && s[2] == 0xf18c_dc54 && s[3] == 0x9032_ba35 &&
      s[4] == 0xb83c_32b0 && s[5] == 0xe42f_3e45 && s[6] == 0x6eb2_1454 && s[7] == 0xa63f_53f6 &&
      s[8] == 0x5956_2a30 && s[9] == 0x9032_7719 && s[10] == 0xbbc3_adc9 && s[11] == 0x41c5_66ce &&
      s[12] == 0x4b9c_0232 && s[13] == 0xa5b7_0f86 && s[14] == 0xb116_993c && s[15] == 0x8033_c566
    ensures var r := RowRound(s);
      r[0] == 0xb10d_aefd && r[1] == 0xa601_170d && r[2] == 0x0989_a8b9 && r[3] == 0xc7ca_6fc4 &&
      r[4] == 0x93b8_74be && r[5] == 0x6d36_9a38 && r[6] == 0x5b0a_6e9a && r[7] == 0xd566_ed88 &&
      r[8] == 0x6cdd_42dd && r[9] == 0x1b6b_73ef && r[10] == 0x60f1_8ceb && r[11] == 0xbad7_17eb &&
      r[12] == 0xeeb3_532a && r[13] == 0x6b86_2f5b && r[14] == 0x8146_327b && r[15] == 0x0768_7657
  {
    RowRoundSteps(s);
    var t1 := QuarterRound(s, 0, 1, 2, 3);
    Quarter(s, 0, 1, 2, 3);
    assert t1[1] == 0xa601_170d && t1[2] == 0x0989_a8b9 && t1[3] == 0xc7ca_6fc4 && t1[0] == 0xb10d_aefd;
    var t2 := QuarterRound(t1, 5, 6, 7, 4);
    Quarter(t1, 5, 6, 7, 4);
    assert t2[6] == 0x5b0a_6e9a && t2[7] == 0xd566_ed88 && t2[4] == 0x93b8_74be && t2[5] == 0x6d36_9a38;
    var t3 := QuarterRound(t2, 10, 11, 8, 9);
    Quarter(t2, 10, 11, 8, 9);
    assert t3[11] == 0xbad7_17eb && t3[8] == 0x6cdd_42dd && t3[9] == 0x1b6b_73ef && t3[10] == 0x60f1_8ceb;
    var t4 := QuarterRound(t3, 15, 12, 13, 14);
    Quarter(t3, 15, 12, 13, 14);
    assert t4[12] == 0xeeb3_532a && t4[13] == 0x6b86_2f5b && t4[14] == 0x8146_327b && t4[15] == 0x0768_7657;
  }

  /** The column round of double round 1 of block 3. */
  lemma B3Col1(s: seq<bv32>)
    requires IsBlock(s)
    requires s[0] == 0xb10d_aefd && s[1] == 0xa601_170d && s[2] == 0x0989_a8b9 && s[3] == 0xc7ca_6fc4 &&
      s[4] == 0x93b8_74be && s[5] == 0x6d36_9a38 && s[6] == 0x5b0a_6e9a && s[7] == 0xd566_ed88 &&
      s[8] == 0x6cdd_42dd && s[9] == 0x1b6b_73ef && s[10] == 0x60f1_8ceb && s[11] == 0xbad7_17eb &&
      s[12] == 0xeeb3_532a && s[13] == 0x6b86_2f5b && s[14] == 0x8146_327b && s[15] == 0x0768_7657
    ensures var r := ColumnRound(s);
      r[0] == 0x531c_6b69 && r[1] == 0x3a7d_df0d && r[2] == 0x5372_8b02 && r[3] == 0xd80d_4ea5 &&
      r[4] == 0x7339_6771 && r[5] == 0xab01_7d03 && r[6] == 0x947f_749f && r[7] == 0x3eef_1436 &&
      r[8] == 0xe2f1_9e95 && r[9] == 0x80b3_d166 && r[10] == 0x9e76_132c && r[11] == 0x368c_7534 &&
      r[12] == 0x8e73_99ef && r[13] == 0xbf51_1280 && r[14] == 0x7cbb_f0a6 && r[15] == 0x22c1_a3b9
  {
    ColumnRoundSteps(s);
    var t1 := QuarterRound(s, 0, 4, 8, 12);
    Quarter(s, 0, 4, 8, 12);
    assert t1[4] == 0x7339_6771 && t1[8] == 0xe2f1_9e95 && t1[12] == 0x8e73_99ef && t1[0] == 0x531c_6b69;
    var t2 := QuarterRound(t1, 5, 9, 13, 1);
    Quarter(t1, 5, 9, 13, 1);
    assert t2[9] == 0x80b3_d166 && t2[13] == 0xbf51_1280 && t2[1] == 0x3a7d_df0d && t2[5] == 0xab01_7d03;
    var t3 := QuarterRound(t2, 10, 14, 2, 6);
    Quarter(t2, 10, 14, 2, 6);
    assert t3[14] == 0x7cbb_f0a6 && t3[2] == 0x5372_8b02 && t3[6] == 0x947f_749f && t3[10] == 0x9e76_132c;
    var t4 := QuarterRound(t3, 15, 3, 7, 11);
    Quarter(t3, 15, 3, 7, 11);
    assert t4[3] == 0xd80d_4ea5 && t4[7] == 0x3eef_1436 && t4[11] == 0x368c_7534 && t4[15] == 0x22c1_a3b9;
  }

  /** The row round of double round 1 of block 3. */
  lemma B3Row1(s: seq<bv32>)
    requires IsBlock(s)
    requires s[0] == 0x531c_6b69 && s[1] == 0x3a7d_df0d && s[2] == 0x5372_8b02 && s[3] == 0xd80d_4ea5 &&
      s[4] == 0x7339_6771 && s[5] == 0xab01_7d03 && s[6] == 0x947f_749f && s[7] == 0x3eef_1436 &&
      s[8] == 0xe2f1_9e95 && s[9] == 0x80b3_d166 && s[10] == 0x9e76_132c && s[11] == 0x368c_7534 &&
      s[12] == 0x8e73_99ef && s[13] == 0xbf51_1280 && s[14] == 0x7cbb_f0a6 && s[15] == 0x22c1_a3b9
    ensures var r := RowRound(s);
      r[0] == 0xa9fc_93e6 && r[1] == 0xaea0_d818 && r[2] == 0x29f5_8901 && r[3] == 0x142e_75b7 &&
      r[4] == 0xc324_b2e1 && r[5] == 0x3ffe_e770 && r[6] == 0x890d_4e90 && r[7] == 0x2378_325e &&
      r[8] == 0x0a6f_5014 && r[9] == 0x313a_24fb && r[10] == 0x4a4a_fd89 && r[11] == 0xa27e_3c3b &&
      r[12] == 0x30b9_b620 && r[13] == 0x49e2_a026 && r[14] == 0xf673_3ff5 && r[15] == 0xa2ac_a2ee
  {
    RowRoundSteps(s);
    var t1 := QuarterRound(s, 0, 1, 2, 3);
    Quarter(s, 0, 1, 2, 3);
    assert t1[1] == 0xaea0_d818 && t1[2] == 0x29f5_8901 && t1[3] == 0x142e_75b7 && t1[0] == 0xa9fc_93e6;
    var t2 := QuarterRound(t1, 5, 6, 7, 4);
    Quarter(t1, 5, 6, 7, 4);
    assert t2[6] == 0x890d_4e90 && t2[7] == 0x2378_325e && t2[4] == 0xc324_b2e1 && t2[5] == 0x3ffe_e770;
    var t3 := QuarterRound(t2, 10, 11, 8, 9);
    Quarter(t2, 10, 11, 8, 9);
    assert t3[11] == 0xa27e_3c3b && t3[8] == 0x0a6f_5014 && t3[9] == 0x313a_24fb && t3[10] == 0x4a4a_fd89;
    var t4 := QuarterRound(t3, 15, 12, 13, 14);
    Quarter(t3, 15, 12, 13, 14);
    assert t4[12] == 0x30b9_b620 && t4[13] == 0x49e2_a026 && t4[14] == 0xf673_3ff5 && t4[15] == 0xa2ac_a2ee;
  }

  /** The column round of double round 2 of block 3. */
  lemma B3Col2(s: seq<bv32>)
    requires IsBlock(s)
    requires s[0] == 0xa9fc_93e6 && s[1] == 0xaea0_d818 && s[2] == 0x29f5_8901 && s[3] == 0x142e_75b7 &&
      s[4] == 0xc324_b2e1 && s[5] == 0x3ffe_e770 && s[6] == 0x890d_4e90 && s[7] == 0x2378_325e &&
      s[8] == 0x0a6f_5014 && s[9] == 0x313a_24fb && s[10] == 0x4a4a_fd89 && s[11] == 0xa27e_3c3b &&
      s[12] == 0x30b9_b620 && s[13] == 0x49e2_a026 && s[14] == 0xf673_3ff5 && s[15] == 0xa2ac_a2ee
    ensures var r := ColumnRound(s);
      r[0] == 0x5bb3_de6b && r[1] == 0xc99c_27f2 && r[2] == 0x6994_c248 && r[3] == 0x8141_e115 &&
      r[4] == 0x9801_b18c && r[5] == 0x3acb_cf56 && r[6] == 0xb7a1_d6ed && r[7] == 0xfe70_3419 &&
      r[8] == 0xf6e5_b497 && r[9] == 0x7ee5_e08c && r[10] == 0x2e9e_7953 && r[11] == 0xe0db_f3cd &&
      r[12] == 0xdc7d_c7fc && r[13] == 0x806d_595b && r[14] == 0x5a55_331c && r[15] == 0x3d37_dfde
  {
    ColumnRoundSteps(s);
    var t1 := QuarterRound(s, 0, 4, 8, 12);
    Quarter(s, 0, 4, 8, 12);
    assert t1[4] == 0x9801_b18c && t1[8] == 0xf6e5_b497 && t1[12] == 0xdc7d_c7fc && t1[0] == 0x5bb3_de6b;
    var t2 := QuarterRound(t1, 5, 9, 13, 1);
    Quarter(t1, 5, 9, 13, 1);
    assert t2[9] == 0x7ee5_e08c && t2[13] == 0x806d_595b && t2[1] == 0xc99c_27f2 && t2[5] == 0x3acb_cf56;
    var t3 := QuarterRound(t2, 10, 14, 2, 6);
    Quarter(t2, 10, 14, 2, 6);
    assert t3[14] == 0x5a55_331c && t3[2] == 0x6994_c248 && t3[6] == 0xb7a1_d6ed && t3[10] == 0x2e9e_7953;
    var t4 := QuarterRound(t3, 15, 3, 7, 11);
    Quarter(t3, 15, 3, 7, 11);
    assert t4[3] == 0x8141_e115 && t4[7] == 0xfe70_3419 && t4[11] == 0xe0db_f3cd && t4[15] == 0x3d37_dfde;
  }

  /** The row round of double round 2 of block 3. */
  lemma B3Row2(s: seq<bv32>)
    requires IsBlock(s)
    requires s[0] == 0x5bb3_de6b && s[1] == 0xc99c_27f2 && s[2] == 0x6994_c248 && s[3] == 0x8141_e115 &&
      s[4] == 0x9801_b18c && s[5] == 0x3acb_cf56 && s[6] == 0xb7a1_d6ed && s[7] == 0xfe70_3419 &&
      s[8] == 0xf6e5_b497 && s[9] == 0x7ee5_e08c && s[10] == 0x2e9e_7953 && s[11] == 0xe0db_f3cd &&
      s[12] == 0xdc7d_c7fc && s[13] == 0x806d_595b && s[14] == 0x5a55_331c && s[15] == 0x3d37_dfde
    ensures var r := RowRound(s);
      r[0] == 0x11fd_ab09 && r[1] == 0xb343_e79c && r[2] == 0x8618_cc55 && r[3] == 0x173f_c63e &&
      r[4] == 0x7cf1_1f33 && r[5] == 0x461b_496c && r[6] == 0xd161_a784 && r[7] == 0xa49d_8001 &&
      r[8] == 0xddcf_6834 && r[9] == 0xae6c_0094 && r[10] == 0x8dbc_49be && r[11] == 0x22f7_1c1b &&
      r[12] == 0x1af4_bab7 && r[13] == 0xd958_73eb && r[14] == 0xff81_6d95 && r[15] == 0xbb34_bcb9
  {
    RowRoundSteps(s);
    var t1 := QuarterRound(s, 0, 1, 2, 3);
    Quarter(s, 0, 1, 2, 3);
    assert t1[1] == 0xb343_e79c && t1[2] == 0x8618_cc55 && t1[3] == 0x173f_c63e && t1[0] == 0x11fd_ab09;
    var t2 := QuarterRound(t1, 5, 6, 7, 4);
    Quarter(t1, 5, 6, 7, 4);
    assert t2[6] == 0xd161_a784 && t2[7] == 0xa49d_8001 && t2[4] == 0x7cf1_1f33 && t2[5] == 0x461b_496c;
    var t3 := QuarterRound(t2, 10, 11, 8, 9);
    Quarter(t2, 10, 11, 8, 9);
    assert t3[11] == 0x22f7_1c1b && t3[8] == 0xddcf_6834 && t3[9] == 0xae6c_0094 && t3[10] == 0x8dbc_49be;
    var t4 := QuarterRound(t3, 15, 12, 13, 14);
    Quarter(t3, 15, 12, 13, 14);
    assert t4[12] == 0x1af4_bab7 && t4[13] == 0xd958_73eb && t4[14] == 0xff81_6d95 && t4[15] == 0xbb34_bcb9;
  }

  /** The column round of double round 3 of block 3. */
  lemma B3Col3(s: seq<bv32>)
    requires IsBlock(s)
    requires s[0] == 0x11fd_ab09 && s[1] == 0xb343_e79c && s[2] == 0x8618_cc55 && s[3] == 0x173f_c63e &&
      s[4] == 0x7cf1_1f33 && s[5] == 0x461b_496c && s[6] == 0xd161_a784 && s[7] == 0xa49d_8001 &&
      s[8] == 0xddcf_6834 && s[9] == 0xae6c_0094 && s[10] == 0x8dbc_49be && s[11] == 0x22f7_1c1b &&
      s[12] == 0x1af4_bab7 && s[13] == 0xd958_73eb && s[14] == 0xff81_6d95 && s[15] == 0xbb34_bcb9
    ensures var r := ColumnRound(s);
      r[0] == 0xb8a0_c7d6 && r[1] == 0x9f4f_9e8b && r[2] == 0xea34_3dab && r[3] == 0x02d3_ac51 &&
      r[4] == 0x05c3_ff25 && r[5] == 0xae02_d13d && r[6] == 0x102d_0cf1 && r[7] == 0xb44f_957d &&
      r[8] == 0x5e9b_341b && r[9] == 0x01f4_84e8 && r[10] == 0xa7cf_a03b && r[11] == 0x4ace_caff &&
      r[12] == 0xfc9c_b63c && r[13] == 0xc6c4_db7b && r[14] == 0x7179_ccba && r[15] == 0x3ac7_40c0
  {
    ColumnRoundSteps(s);
    var t1 := QuarterRound(s, 0, 4, 8, 12);
    Quarter(s, 0, 4, 8, 12);
    assert t1[4] == 0x05c3_ff25 && t1[8] == 0x5e9b_341b && t1[12] == 0xfc9c_b63c && t1[0] == 0xb8a0_c7d6;
    var t2 := QuarterRound(t1, 5, 9, 13, 1);
    Quarter(t1, 5, 9, 13, 1);
    assert t2[9] == 0x01f4_84e8 && t2[13] == 0xc6c4_db7b && t2[1] == 0x9f4f_9e8b && t2[5] == 0xae02_d13d;
    var t3 := QuarterRound(t2, 10, 14, 2, 6);
    Quarter(t2, 10, 14, 2, 6);
    assert t3[14] == 0x7179_ccba && t3[2] == 0xea34_3dab && t3[6] == 0x102d_0cf1 && t3[10] == 0xa7cf_a03b;
    var t4 := QuarterRound(t3, 15, 3, 7, 11);
    Quarter(t3, 15, 3, 7, 11);
    assert t4[3] == 0x02d3_ac51 && t4[7] == 0xb44f_957d && t4[11] == 0x4ace_caff && t4[15] == 0x3ac7_40c0;
  }

  /** The row round of double round 3 of block 3. */
  lemma B3Row3(s: seq<bv32>)
    requires IsBlock(s)
    requires s[0] == 0xb8a0_c7d6 && s[1] == 0x9f4f_9e8b && s[2] == 0xea34_3dab && s[3] == 0x02d3_ac51 &&
      s[4] == 0x05c3_ff25 && s[5] == 0xae02_d13d && s[6] == 0x102d_0cf1 && s[7] == 0xb44f_957d &&
      s[8] == 0x5e9b_341b && s[9] == 0x01f4_84e8 && s[10] == 0xa7cf_a03b && s[11] == 0x4ace_caff &&
      s[12] == 0xfc9c_b63c && s[13] == 0xc6c4_db7b && s[14] == 0x7179_ccba && s[15] == 0x3ac7_40c0
    ensures var r := RowRound(s);
      r[0] == 0x6f09_c9a7 && r[1] == 0x2575_8d56 && r[2] == 0xc69e_6417 && r[3] == 0x7cfe_11d3 &&
      r[4] == 0xf6bf_1dd7 && r[5] == 0x5e5a_bd78 && r[6] == 0xf345_3da8 && r[7] == 0x2452_5e3f &&
      r[8] == 0x096d_f8ba && r[9] == 0x4b88_32a1 && r[10] == 0x0aa2_f3e3 && r[11] == 0xa8dc_5b2b &&
      r[12] == 0xdc1a_0b6a && r[13] == 0x045c_8f56 && r[14] == 0xa221_d0b4 && r[15] == 0xbaed_d939
  {
    RowRoundSteps(s);
    var t1 := QuarterRound(s, 0, 1, 2, 3);
    Quarter(s, 0, 1, 2, 3);
    assert t1[1] == 0x2575_8d56 && t1[2] == 0xc69e_6417 && t1[3] == 0x7cfe_11d3 && t1[0] == 0x6f09_c9a7;
    var t2 := QuarterRound(t1, 5, 6, 7, 4);
    Quarter(t1, 5, 6, 7, 4);
    assert t2[6] == 0xf345_3da8 && t2[7] == 0x2452_5e3f && t2[4] == 0xf6bf_1dd7 && t2[5] == 0x5e5a_bd78;
    var t3 := QuarterRound(t2, 10, 11, 8, 9);
    Quarter(t2, 10, 11, 8, 9);
    assert t3[11] == 0xa8dc_5b2b && t3[8] == 0x096d_f8ba && t3[9] == 0x4b88_32a1 && t3[10] == 0x0aa2_f3e3;
    var t4 := QuarterRound(t3, 15, 12, 13, 14);
    Quarter(t3, 15, 12, 13, 14);
    assert t4[12] == 0xdc1a_0b6a && t4[13] == 0x045c_8f56 && t4[14] == 0xa221_d0b4 && t4[15] == 0xbaed_d939;
  }

  /** The column round of double round 4 of block 3. */
  lemma B3Col4(s: seq<bv32>)
    requires IsBlock(s)
    requires s[0] == 0x6f09_c9a7 && s[1] == 0x2575_8d56 && s[2] == 0xc69e_6417 && s[3] == 0x7cfe_11d3 &&
      s[4] == 0xf6bf_1dd7 && s[5] == 0x5e5a_bd78 && s[6] == 0xf345_3da8 && s[7] == 0x2452_5e3f &&
      s[8] == 0x096d_f8ba && s[9] == 0x4b88_32a1 && s[10] == 0x0aa2_f3e3 && s[11] == 0xa8dc_5b2b &&
      s[12] == 0xdc1a_0b6a && s[13] == 0x045c_8f56 && s[14] == 0xa221_d0b4 && s[15] == 0xbaed_d939
    ensures var r := ColumnRound(s);
      r[0] == 0x219f_56dc && r[1] == 0xd7d3_da52 && r[2] == 0x7e8c_3ed6 && r[3] == 0x99e4_23e2 &&
      r[4] == 0x6755_9572 && r[5] == 0x38c9_0c40 && r[6] == 0x59c1_2730 && r[7] == 0x87a8_6896 &&
      r[8] == 0xb7d3_cb16 && r[9] == 0xa3ad_55e0 && r[10] == 0x92b9_92d6 && r[11] == 0x3953_5f1a &&
      r[12] == 0xf00b_088f && r[13] == 0x147a_3f52 && r[14] == 0x5639_154a && r[15] == 0xa42e_dad6
  {
    ColumnRoundSteps(s);
    var t1 := QuarterRound(s, 0, 4, 8, 12);
    Quarter(s, 0, 4, 8, 12);
    assert t1[4] == 0x6755_9572 && t1[8] == 0xb7d3_cb16 && t1[12] == 0xf00b_088f && t1[0] == 0x219f_56dc;
    var t2 := QuarterRound(t1, 5, 9, 13, 1);
    Quarter(t1, 5, 9, 13, 1);
    assert t2[9] == 0xa3ad_55e0 && t2[13] == 0x147a_3f52 && t2[1] == 0xd7d3_da52 && t2[5] == 0x38c9_0c40;
    var t3 := QuarterRound(t2, 10, 14, 2, 6);
    Quarter(t2, 10, 14, 2, 6);
    assert t3[14] == 0x5639_154a && t3[2] == 0x7e8c_3ed6 && t3[6] == 0x59c1_2730 && t3[10] == 0x92b9_92d6;
    var t4 := QuarterRound(t3, 15, 3, 7, 11);
    Quarter(t3, 15, 3, 7, 11);
    assert t4[3] == 0x99e4_23e2 && t4[7] == 0x87a8_6896 && t4[11] == 0x3953_5f1a && t4[15] == 0xa42e_dad6;
  }

  /** The row round of double round 4 of block 3. */
  lemma B3Row4(s: seq<bv32>)
    requires IsBlock(s)
    requires s[0] == 0x219f_56dc && s[1] == 0xd7d3_da52 && s[2] == 0x7e8c_3ed6 && s[3] == 0x99e4_23e2 &&
      s[4] == 0x6755_9572 && s[5] == 0x38c9_0c40 && s[6] == 0x59c1_2730 && s[7] == 0x87a8_6896 &&
      s[8] == 0xb7d3_cb16 && s[9] == 0xa3ad_55e0 && s[10] == 0x92b9_92d6 && s[11] == 0x3953_5f1a &&
      s[12] == 0xf00b_088f && s[13] == 0x147a_3f52 && s[14] == 0x5639_154a && s[15] == 0xa42e_dad6
    ensures var r := RowRound(s);
      r[0] == 0xf56b_b0e5 && r[1] == 0x166e_850f && r[2] == 0x653b_e8a6 && r[3] == 0xd452_8c97 &&
      r[4] == 0x83a8_847b && r[5] == 0x80c7_d9d6 && r[6] == 0x5691_fe60 && r[7] == 0x31bd_2988 &&
      r[8] == 0x76fe_642f && r[9] == 0x0eab_45c4 && r[10] == 0x3577_8470 && r[11] == 0x0a27_0401 &&
      r[12] == 0xc3f3_18f2 && r[13] == 0x579d_af82 && r[14] == 0x4f37_9638 && r[15] == 0xb2c4_4183
  {
    RowRoundSteps(s);
    var t1 := QuarterRound(s, 0, 1, 2, 3);
    Quarter(s, 0, 1, 2, 3);
    assert t1[1] == 0x166e_850f && t1[2] == 0x653b_e8a6 && t1[3] == 0xd452_8c97 && t1[0] == 0xf56b_b0e5;
    var t2 := QuarterRound(t1, 5, 6, 7, 4);
    Quarter(t1, 5, 6, 7, 4);
    assert t2[6] == 0x5691_fe60 && t2[7] == 0x31bd_2988 && t2[4] == 0x83a8_847b && t2[5] == 0x80c7_d9d6;
    var t3 := QuarterRound(t2, 10, 11, 8, 9);
    Quarter(t2, 10, 11, 8, 9);
    assert t3[11] == 0x0a27_0401 && t3[8] == 0x76fe_642f && t3[9] == 0x0eab_45c4 && t3[10] == 0x3577_8470;
    var t4 := QuarterRound(t3, 15, 12, 13, 14);
    Quarter(t3, 15, 12, 13, 14);
    assert t4[12] == 0xc3f3_18f2 && t4[13] == 0x579d_af82 && t4[14] == 0x4f37_9638 && t4[15] == 0xb2c4_4183;
  }

  /** The column round of double round 5 of block 3. */
  lemma B3Col5(s: seq<bv32>)
    requires IsBlock(s)
    requires s[0] == 0xf56b_b0e5 && s[1] == 0x166e_850f && s[2] == 0x653b_e8a6 && s[3] == 0xd452_8c97 &&
      s[4] == 0x83a8_847b && s[5] == 0x80c7_d9d6 && s[6] == 0x5691_fe60 && s[7] == 0x31bd_2988 &&
      s[8] == 0x76fe_642f && s[9] == 0x0eab_45c4 && s[10] == 0x3577_8470 && s[11] == 0x0a27_0401 &&
      s[12] == 0xc3f3_18f2 && s[13] == 0x579d_af82 && s[14] == 0x4f37_9638 && s[15] == 0xb2c4_4183
    ensures var r := ColumnRound(s);
      r[0] == 0x9ed0_a426 && r[1] == 0x05f9_29a7 && r[2] == 0xb83e_35a4 && r[3] == 0xa1f0_4ec9 &&
      r[4] == 0x2ccc_6fa7 && r[5] == 0xbd90_8f00 && r[6] == 0xf015_bee6 && r[7] == 0x589d_b121 &&
      r[8] == 0x06bf_7c6b && r[9] == 0x9584_370f && r[10] == 0xe75d_253f && r[11] == 0xb5da_5b50 &&
      r[12] == 0xbe71_5e83 && r[13] == 0xcfbc_65ae && r[14] == 0x4bf6_fe7e && r[15] == 0x8300_7863
  {
    ColumnRoundSteps(s);
    var t1 := QuarterRound(s, 0, 4, 8, 12);
    Quarter(s, 0, 4, 8, 12);
    assert t1[4] == 0x2ccc_6fa7 && t1[8] == 0x06bf_7c6b && t1[12] == 0xbe71_5e83 && t1[0] == 0x9ed0_a426;
    var t2 := QuarterRound(t1, 5, 9, 13, 1);
    Quarter(t1, 5, 9, 13, 1);
    assert t2[9] == 0x9584_370f && t2[13] == 0xcfbc_65ae && t2[1] == 0x05f9_29a7 && t2[5] == 0xbd90_8f00;
    var t3 := QuarterRound(t2, 10, 14, 2, 6);
    Quarter(t2, 10, 14, 2, 6);
    assert t3[14] == 0x4bf6_fe7e && t3[2] == 0xb83e_35a4 && t3[6] == 0xf015_bee6 && t3[10] == 0xe75d_253f;
    var t4 := QuarterRound(t3, 15, 3, 7, 11);
    Quarter(t3, 15, 3, 7, 11);
    assert t4[3] == 0xa1f0_4ec9 && t4[7] == 0x589d_b121 && t4[11] == 0xb5da_5b50 && t4[15] == 0x8300_7863;
  }

  /** The row round of double round 5 of block 3. */
  lemma B3Row5(s: seq<bv32>)
    requires IsBlock(s)
    requires s[0] == 0x9ed0_a426 && s[1] == 0x05f9_29a7 && s[2] == 0xb83e_35a4 && s[3] == 0xa1f0_4ec9 &&
      s[4] == 0x2ccc_6fa7 && s[5] == 0xbd90_8f00 && s[6] == 0xf015_bee6 && s[7] == 0x589d_b121 &&
      s[8] == 0x06bf_7c6b && s[9] == 0x9584_370f && s[10] == 0xe75d_253f && s[11] == 0xb5da_5b50 &&
      s[12] == 0xbe71_5e83 && s[13] == 0xcfbc_65ae && s[14] == 0x4bf6_fe7e && s[15] == 0x8300_7863
    ensures var r := RowRound(s);
      r[0] == 0xdd78_ee24 && r[1] == 0x6580_5e07 && r[2] == 0x1a3a_6fac && r[3] == 0xf846_213e &&
      r[4] == 0x3ca9_5e3d && r[5] == 0x6cdf_233b && r[6] == 0xde6a_ed13 && r[7] == 0xae65_9616 &&
      r[8] == 0xa5fc_2732 && r[9] == 0x81f0_3a61 && r[10] == 0x6111_ba8e && r[11] == 0xc574_7c6e &&
      r[12] == 0xc5ca_2e64 && r[13] == 0x5af1_eb3f && r[14] == 0xc8c2_9a69 && r[15] == 0x95a0_f6b1
  {
    RowRoundSteps(s);
    var t1 := QuarterRound(s, 0, 1, 2, 3);
    Quarter(s, 0, 1, 2, 3);
    assert t1[1] == 0x6580_5e07 && t1[2] == 0x1a3a_6fac && t1[3] == 0xf846_213e && t1[0] == 0xdd78_ee24;
    var t2 := QuarterRound(t1, 5, 6, 7, 4);
    Quarter(t1, 5, 6, 7, 4);
    assert t2[6] == 0xde6a_ed13 && t2[7] == 0xae65_9616 && t2[4] == 0x3ca9_5e3d && t2[5] == 0x6cdf_233b;
    var t3 := QuarterRound(t2, 10, 11, 8, 9);
    Quarter(t2, 10, 11, 8, 9);
    assert t3[11] == 0xc574_7c6e && t3[8] == 0xa5fc_2732 && t3[9] == 0x81f0_3a61 && t3[10] == 0x6111_ba8e;
    var t4 := QuarterRound(t3, 15, 12, 13, 14);
    Quarter(t3, 15, 12, 13, 14);
    assert t4[12] == 0xc5ca_2e64 && t4[13] == 0x5af1_eb3f && t4[14] == 0xc8c2_9a69 && t4[15] == 0x95a0_f6b1;
  }

  /** The column round of double round 6 of block 3. */
  lemma B3Col6(s: seq<bv32>)
    requires IsBlock(s)
    requires s[0] == 0xdd78_ee24 && s[1] == 0x6580_5e07 && s[2] == 0x1a3a_6fac && s[3] == 0xf846_213e &&
      s[4] == 0x3ca9_5e3d && s[5] == 0x6cdf_233b && s[6] == 0xde6a_ed13 && s[7] == 0xae65_9616 &&
      s[8] == 0xa5fc_2732 && s[9] == 0x81f0_3a61 && s[10] == 0x6111_ba8e && s[11] == 0xc574_7c6e &&
      s[12] == 0xc5ca_2e64 && s[13] == 0x5af1_eb3f && s[14] == 0xc8c2_9a69 && s[15] == 0x95a0_f6b1
    ensures var r := ColumnRound(s);
      r[0] == 0x4a4c_73c1 && r[1] == 0xa482_6070 && r[2] == 0x5c31_6603 && r[3] == 0x72ff_ae93 &&
      r[4] == 0x9d27_1a6c && r[5] == 0x5938_8b04 && r[6] == 0x8875_d74b && r[7] == 0xef2f_1e07 &&
      r[8] == 0xe5ed_07c7 && r[9] == 0xae30_9b08 && r[10] == 0x942a_2812 && r[11] == 0x1ce7_302b &&
      r[12] == 0x418c_5e06 && r[13] == 0x458d_6d09 && r[14] == 0x7691_4af6 && r[15] == 0xad68_c6e8
  {
    ColumnRoundSteps(s);
    var t1 := QuarterRound(s, 0, 4, 8, 12);
    Quarter(s, 0, 4, 8, 12);
    assert t1[4] == 0x9d27_1a6c && t1[8] == 0xe5ed_07c7 && t1[12] == 0x418c_5e06 && t1[0] == 0x4a4c_73c1;
    var t2 := QuarterRound(t1, 5, 9, 13, 1);
    Quarter(t1, 5, 9, 13, 1);
    assert t2[9] == 0xae30_9b08 && t2[13] == 0x458d_6d09 && t2[1] == 0xa482_6070 && t2[5] == 0x5938_8b04;
    var t3 := QuarterRound(t2, 10, 14, 2, 6);
    Quarter(t2, 10, 14, 2, 6);
    assert t3[14] == 0x7691_4af6 && t3[2] == 0x5c31_6603 && t3[6] == 0x8875_d74b && t3[10] == 0x942a_2812;
    var t4 := QuarterRound(t3, 15, 3, 7, 11);
    Quarter(t3, 15, 3, 7, 11);
    assert t4[3] == 0x72ff_ae93 && t4[7] == 0xef2f_1e07 && t4[11] == 0x1ce7_302b && t4[15] == 0xad68_c6e8;
  }

  /** The row round of double round 6 of block 3. */
  lemma B3Row6(s: seq<bv32>)
    requires IsBlock(s)
    requires s[0] == 0x4a4c_73c1 && s[1] == 0xa482_6070 && s[2] == 0x5c31_6603 && s[3] == 0x72ff_ae93 &&
      s[4] == 0x9d27_1a6c && s[5] == 0x5938_8b04 && s[6] == 0x8875_d74b && s[7] == 0xef2f_1e07 &&
      s[8] == 0xe5ed_07c7 && s[9] == 0xae30_9b08 && s[10] == 0x942a_2812 && s[11] == 0x1ce7_302b &&
      s[12] == 0x418c_5e06 && s[13] == 0x458d_6d09 && s[14] == 0x7691_4af6 && s[15] == 0xad68_c6e8
    ensures var r := RowRound(s);
      r[0] == 0xe146_2404 && r[1] == 0x0293_4a2e && r[2] == 0xe34a_b89a && r[3] == 0xb2a6_b228 &&
      r[4] == 0xc181_c57c && r[5] == 0xb730_c270 && r[6] == 0xa7a7_6f30 && r[7] == 0x50db_7606 &&
      r[8] == 0x8427_3e4c && r[9] == 0x115a_4dbd && r[10] == 0xa40c_7e14 && r[11] == 0x3186_bd0a &&
      r[12] == 0xbc84_b117 && r[13] == 0x9f62_93da && r[14] == 0x9e0f_618a && r[15] == 0x78f8_332f
  {
    RowRoundSteps(s);
    var t1 := QuarterRound(s, 0, 1, 2, 3);
    Quarter(s, 0, 1, 2, 3);
    assert t1[1] == 0x0293_4a2e && t1[2] == 0xe34a_b89a && t1[3] == 0xb2a6_b228 && t1[0] == 0xe146_2404;
    var t2 := QuarterRound(t1, 5, 6, 7, 4);
    Quarter(t1, 5, 6, 7, 4);
    assert t2[6] == 0xa7a7_6f30 && t2[7] == 0x50db_7606 && t2[4] == 0xc181_c57c && t2[5] == 0xb730_c270;
    var t3 := QuarterRound(t2, 10, 11, 8, 9);
    Quarter(t2, 10, 11, 8, 9);
    assert t3[11] == 0x3186_bd0a && t3[8] == 0x8427_3e4c && t3[9] == 0x115a_4dbd && t3[10] == 0xa40c_7e14;
    var t4 := QuarterRound(t3, 15, 12, 13, 14);
    Quarter(t3, 15, 12, 13, 14);
    assert t4[12] == 0xbc84_b117 && t4[13] == 0x9f62_93da && t4[14] == 0x9e0f_618a && t4[15] == 0x78f8_332f;
  }

  /** The column round of double round 7 of block 3. */
  lemma B3Col7(s: seq<bv32>)
    requires IsBlock(s)
    requires s[0] == 0xe146_2404 && s[1] == 0x0293_4a2e && s[2] == 0xe34a_b89a && s[3] == 0xb2a6_b228 &&
      s[4] == 0xc181_c57c && s[5] == 0xb730_c270 && s[6] == 0xa7a7_6f30 && s[7] == 0x50db_7606 &&
      s[8] == 0x8427_3e4c && s[9] == 0x115a_4dbd && s[10] == 0xa40c_7e14 && s[11] == 0x3186_bd0a &&
      s[12] == 0xbc84_b117 && s[13] == 0x9f62_93da && s[14] == 0x9e0f_618a && s[15] == 0x78f8_332f
    ensures var r := ColumnRound(s);
      r[0] == 0xebef_ff61 && r[1] == 0x84fd_4566 && r[2] == 0xefc9_3f42 && r[3] == 0x8dde_aefd &&
      r[4] == 0x24eb_48b2 && r[5] == 0x60e4_ede5 && r[6] == 0xc7f9_49c8 && r[7] == 0xfd1f_2e0b &&
      r[8] == 0xe6fe_5240 && r[9] == 0xf35c_02e1 && r[10] == 0x8026_a11e && r[11] == 0x8a27_ac55 &&
      r[12] == 0x8fda_f06a && r[13] == 0x86e8_308f && r[14] == 0x47f9_c3af && r[15] == 0x117a_2e34
  {
    ColumnRoundSteps(s);
    var t1 := QuarterRound(s, 0, 4, 8, 12);
    Quarter(s, 0, 4, 8, 12);
    assert t1[4] == 0x24eb_48b2 && t1[8] == 0xe6fe_5240 && t1[12] == 0x8fda_f06a && t1[0] == 0xebef_ff61;
    var t2 := QuarterRound(t1, 5, 9, 13, 1);
    Quarter(t1, 5, 9, 13, 1);
    assert t2[9] == 0xf35c_02e1 && t2[13] == 0x86e8_308f && t2[1] == 0x84fd_4566 && t2[5] == 0x60e4_ede5;
    var t3 := QuarterRound(t2, 10, 14, 2, 6);
    Quarter(t2, 10, 14, 2, 6);
    assert t3[14] == 0x47f9_c3af && t3[2] == 0xefc9_3f42 && t3[6] == 0xc7f9_49c8 && t3[10] == 0x8026_a11e;
    var t4 := QuarterRound(t3, 15, 3, 7, 11);
    Quarter(t3, 15, 3, 7, 11);
    assert t4[3] == 0x8dde_aefd && t4[7] == 0xfd1f_2e0b && t4[11] == 0x8a27_ac55 && t4[15] == 0x117a_2e34;
  }

  /** The row round of double round 7 of block 3. */
  lemma B3Row7(s: seq<bv32>)
    requires IsBlock(s)
    requires s[0] == 0xebef_ff61 && s[1] == 0x84fd_4566 && s[2] == 0xefc9_3f42 && s[3] == 0x8dde_aefd &&
      s[4] == 0x24eb_48b2 && s[5] == 0x60e4_ede5 && s[6] == 0xc7f9_49c8 && s[7] == 0xfd1f_2e0b &&
      s[8] == 0xe6fe_5240 && s[9] == 0xf35c_02e1 && s[10] == 0x8026_a11e && s[11] == 0x8a27_ac55 &&
      s[12] == 0x8fda_f06a && s[13] == 0x86e8_308f && s[14] == 0x47f9_c3af && s[15] == 0x117a_2e34
    ensures var r := RowRound(s);
      r[0] == 0xa7e4_26ab && r[1] == 0x63aa_6a5a && r[2] == 0xdb1a_49dd && r[3] == 0x1b58_4925 &&
      r[4] == 0x7a8d_dca6 && r[5] == 0x57a7_40de && r[6] == 0x2fe2_020a && r[7] == 0x70c0_f12a &&
      r[8] == 0xdf14_47d7 && r[9] == 0xa024_67b0 && r[10] == 0x3e3b_5dfc && r[11] == 0x4b76_53ec &&
      r[12] == 0x3622_01c6 && r[13] == 0xbeb7_c400 && r[14] == 0x7f41_1d34 && r[15] == 0x95aa_d9d7
  {
    RowRoundSteps(s);
    var t1 := QuarterRound(s, 0, 1, 2, 3);
    Quarter(s, 0, 1, 2, 3);
    assert t1[1] == 0x63aa_6a5a && t1[2] == 0xdb1a_49dd && t1[3] == 0x1b58_4925 && t1[0] == 0xa7e4_26ab;
    var t2 := QuarterRound(t1, 5, 6, 7, 4);
    Quarter(t1, 5, 6, 7, 4);
    assert t2[6] == 0x2fe2_020a && t2[7] == 0x70c0_f12a && t2[4] == 0x7a8d_dca6 && t2[5] == 0x57a7_40de;
    var t3 := QuarterRound(t2, 10, 11, 8, 9);
    Quarter(t2, 10, 11, 8, 9);
    assert t3[11] == 0x4b76_53ec && t3[8] == 0xdf14_47d7 && t3[9] == 0xa024_67b0 && t3[10] == 0x3e3b_5dfc;
    var t4 := QuarterRound(t3, 15, 12, 13, 14);
    Quarter(t3, 15, 12, 13, 14);
    assert t4[12] == 0x3622_01c6 && t4[13] == 0xbeb7_c400 && t4[14] == 0x7f41_1d34 && t4[15] == 0x95aa_d9d7;
  }

  /** The column round of double round 8 of block 3. */
  lemma B3Col8(s: seq<bv32>)
    requires IsBlock(s)
    requires s[0] == 0xa7e4_26ab && s[1] == 0x63aa_6a5a && s[2] == 0xdb1a_49dd && s[3] == 0x1b58_4925 &&
      s[4] == 0x7a8d_dca6 && s[5] == 0x57a7_40de && s[6] == 0x2fe2_020a && s[7] == 0x70c0_f12a &&
      s[8] == 0xdf14_47d7 && s[9] == 0xa024_67b0 && s[10] == 0x3e3b_5dfc && s[11] == 0x4b76_53ec &&
      s[12] == 0x3622_01c6 && s[13] == 0xbeb7_c400 && s[14] == 0x7f41_1d34 && s[15] == 0x95aa_d9d7
    ensures var r := ColumnRound(s);
      r[0] == 0xa04d_bbc5 && r[1] == 0x6a7f_b8e2 && r[2] == 0x83ed_b6bd && r[3] == 0x8bce_a8d5 &&
      r[4] == 0x7999_e449 && r[5] == 0x7928_9de6 && r[6] == 0xf57a_1cb1 && r[7] == 0x83c5_a968 &&
      r[8] == 0x2301_af95 && r[9] == 0x08f1_fbed && r[10] == 0x7382_b863 && r[11] == 0xc131_f21e &&
      r[12] == 0x4459_d255 && r[13] == 0x8cce_52c1 && r[14] == 0x71f1_1e03 && r[15] == 0xfbb3_ca09
  {
    ColumnRoundSteps(s);
    var t1 := QuarterRound(s, 0, 4, 8, 12);
    Quarter(s, 0, 4, 8, 12);
    assert t1[4] == 0x7999_e449 && t1[8] == 0x2301_af95 && t1[12] == 0x4459_d255 && t1[0] == 0xa04d_bbc5;
    var t2 := QuarterRound(t1, 5, 9, 13, 1);
    Quarter(t1, 5, 9, 13, 1);
    assert t2[9] == 0x08f1_fbed && t2[13] == 0x8cce_52c1 && t2[1] == 0x6a7f_b8e2 && t2[5] == 0x7928_9de6;
    var t3 := QuarterRound(t2, 10, 14, 2, 6);
    Quarter(t2, 10, 14, 2, 6);
    assert t3[14] == 0x71f1_1e03 && t3[2] == 0x83ed_b6bd && t3[6] == 0xf57a_1cb1 && t3[10] == 0x7382_b863;
    var t4 := QuarterRound(t3, 15, 3, 7, 11);
    Quarter(t3, 15, 3, 7, 11);
    assert t4[3] == 0x8bce_a8d5 && t4[7] == 0x83c5_a968 && t4[11] == 0xc131_f21e && t4[15] == 0xfbb3_ca09;
  }

  /** The row round of double round 8 of block 3. */
  lemma B3Row8(s: seq<bv32>)
    requires IsBlock(s)
    requires s[0] == 0xa04d_bbc5 && s[1] == 0x6a7f_b8e2 && s[2] == 0x83ed_b6bd && s[3] == 0x8bce_a8d5 &&
      s[4] == 0x7999_e449 && s[5] == 0x7928_9de6 && s[6] == 0xf57a_1cb1 && s[7] == 0x83c5_a968 &&
      s[8] == 0x2301_af95 && s[9] == 0x08f1_fbed && s[10] == 0x7382_b863 && s[11] == 0xc131_f21e &&
      s[12] == 0x4459_d255 && s[13] == 0x8cce_52c1 && s[14] == 0x71f1_1e03 && s[15] == 0xfbb3_ca09
    ensures var r := RowRound(s);
      r[0] == 0x6246_ff6c && r[1] == 0x644d_f5f4 && r[2] == 0xb48e_c4b4 && r[3] == 0x1c9b_abce &&
      r[4] == 0x198e_bf53 && r[5] == 0xaa3d_e57c && r[6] == 0x943b_0b48 && r[7] == 0x4497_f572 &&
      r[8] == 0xfe24_a948 && r[9] == 0x189c_e4df && r[10] == 0x4b1e_e365 && r[11] == 0xfb6b_da20 &&
      r[12] == 0x962d_d463 && r[13] == 0x4ff2_8be2 && r[14] == 0x7df9_a2c7 && r[15] == 0x4114_fdb9
  {
    RowRoundSteps(s);
    var t1 := QuarterRound(s, 0, 1, 2, 3);
    Quarter(s, 0, 1, 2, 3);
    assert t1[1] == 0x644d_f5f4 && t1[2] == 0xb48e_c4b4 && t1[3] == 0x1c9b_abce && t1[0] == 0x6246_ff6c;
    var t2 := QuarterRound(t1, 5, 6, 7, 4);
    Quarter(t1, 5, 6, 7, 4);
    assert t2[6] == 0x943b_0b48 && t2[7] == 0x4497_f572 && t2[4] == 0x198e_bf53 && t2[5] == 0xaa3d_e57c;
    var t3 := QuarterRound(t2, 10, 11, 8, 9);
    Quarter(t2, 10, 11, 8, 9);
    assert t3[11] == 0xfb6b_da20 && t3[8] == 0xfe24_a948 && t3[9] == 0x189c_e4df && t3[10] == 0x4b1e_e365;
    var t4 := QuarterRound(t3, 15, 12, 13, 14);
    Quarter(t3, 15, 12, 13, 14);
    assert t4[12] == 0x962d_d463 && t4[13] == 0x4ff2_8be2 && t4[14] == 0x7df9_a2c7 && t4[15] == 0x4114_fdb9;
  }

  /** The column round of double round 9 of block 3. */
  lemma B3Col9(s: seq<bv32>)
    requires IsBlock(s)
    requires s[0] == 0x6246_ff6c && s[1] == 0x644d_f5f4 && s[2] == 0xb48e_c4b4 && s[3] == 0x1c9b_abce &&
      s[4] == 0x198e_bf53 && s[5] == 0xaa3d_e57c && s[6] == 0x943b_0b48 && s[7] == 0x4497_f572 &&
      s[8] == 0xfe24_a948 && s[9] == 0x189c_e4df && s[10] == 0x4b1e_e365 && s[11] == 0xfb6b_da20 &&
      s[12] == 0x962d_d463 && s[13] == 0x4ff2_8be2 && s[14] == 0x7df9_a2c7 && s[15] == 0x4114_fdb9
    ensures var r := ColumnRound(s);
      r[0] == 0x4984_d14d && r[1] == 0x9455_5828 && r[2] == 0xef21_de8c && r[3] == 0x5cf0_4750 &&
      r[4] == 0x23e7_58af && r[5] == 0x5a6b_7251 && r[6] == 0x8e6d_934e && r[7] == 0x4e1d_e64e &&
      r[8] == 0xa294_9e44 && r[9] == 0x5d71_5cd8 && r[10] == 0x8c77_1558 && r[11] == 0x3ed8_0f41 &&
      r[12] == 0xe8f3_acac && r[13] == 0x1176_23ed && r[14] == 0xd10e_f428 && r[15] == 0x972a_ce6e
  {
    ColumnRoundSteps(s);
    var t1 := QuarterRound(s, 0, 4, 8, 12);
    Quarter(s, 0, 4, 8, 12);
    assert t1[4] == 0x23e7_58af && t1[8] == 0xa294_9e44 && t1[12] == 0xe8f3_acac && t1[0] == 0x4984_d14d;
    var t2 := QuarterRound(t1, 5, 9, 13, 1);
    Quarter(t1, 5, 9, 13, 1);
    assert t2[9] == 0x5d71_5cd8 && t2[13] == 0x1176_23ed && t2[1] == 0x9455_5828 && t2[5] == 0x5a6b_7251;
    var t3 := QuarterRound(t2, 10, 14, 2, 6);
    Quarter(t2, 10, 14, 2, 6);
    assert t3[14] == 0xd10e_f428 && t3[2] == 0xef21_de8c && t3[6] == 0x8e6d_934e && t3[10] == 0x8c77_1558;
    var t4 := QuarterRound(t3, 15, 3, 7, 11);
    Quarter(t3, 15, 3, 7, 11);
    assert t4[3] == 0x5cf0_4750 && t4[7] == 0x4e1d_e64e && t4[11] == 0x3ed8_0f41 && t4[15] == 0x972a_ce6e;
  }

  /** The row round of double round 9 of block 3. */
  lemma B3Row9(s: seq<bv32>)
    requires IsBlock(s)
    requires s[0] == 0x4984_d14d && s[1] == 0x9455_5828 && s[2] == 0xef21_de8c && s[3] == 0x5cf0_4750 &&
      s[4] == 0x23e7_58af && s[5] == 0x5a6b_7251 && s[6] == 0x8e6d_934e && s[7] == 0x4e1d_e64e &&
      s[8] == 0xa294_9e44 && s[9] == 0x5d71_5cd8 && s[10] == 0x8c77_1558 && s[11] == 0x3ed8_0f41 &&
      s[12] == 0xe8f3_acac && s[13] == 0x1176_23ed && s[14] == 0xd10e_f428 && s[15] == 0x972a_ce6e
    ensures var r := RowRound(s);
      r[0] == 0x9311_45f2 && r[1] == 0xaed9_16fb && r[2] == 0x54f1_4f7c && r[3] == 0x103e_a729 &&
      r[4] == 0xed50_f2ac && r[5] == 0x0989_2bcc && r[6] == 0xa708_1371 && r[7] == 0xa916_624c &&
      r[8] == 0x12cd_84ea && r[9] == 0x8ef2_a76d && r[10] == 0x3d29_9258 && r[11] == 0xcae1_1735 &&
      r[12] == 0xf412_e798 && r[13] == 0x6a1a_2efb && r[14] == 0x73dc_9fed && r[15] == 0xac89_b9b5
  {
    RowRoundSteps(s);
    var t1 := QuarterRound(s, 0, 1, 2, 3);
    Quarter(s, 0, 1, 2, 3);
    assert t1[1] == 0xaed9_16fb && t1[2] == 0x54f1_4f7c && t1[3] == 0x103e_a729 && t1[0] == 0x9311_45f2;
    var t2 := QuarterRound(t1, 5, 6, 7, 4);
    Quarter(t1, 5, 6, 7, 4);
    assert t2[6] == 0xa708_1371 && t2[7] == 0xa916_624c && t2[4] == 0xed50_f2ac && t2[5] == 0x0989_2bcc;
    var t3 := QuarterRound(t2, 10, 11, 8, 9);
    Quarter(t2, 10, 11, 8, 9);
    assert t3[11] == 0xcae1_1735 && t3[8] == 0x12cd_84ea && t3[9] == 0x8ef2_a76d && t3[10] == 0x3d29_9258;
    var t4 := QuarterRound(t3, 15, 12, 13, 14);
    Quarter(t3, 15, 12, 13, 14);
    assert t4[12] == 0xf412_e798 && t4[13] == 0x6a1a_2efb && t4[14] == 0x73dc_9fed && t4[15] == 0xac89_b9b5;
  }

  /** The initial block of block number 3. */
  lemma B3Init()
    ensures var s := InitBlock(TestKey, 0, 3);
      s[0] == 0x6170_7865 && s[1] == 0x0000_0080 && s[2] == 0x0000_0000 && s[3] == 0x0000_0000 &&
      s[4] == 0x0000_0000 && s[5] == 0x3320_646e && s[6] == 0x0000_0000 && s[7] == 0x0000_0000 &&
      s[8] == 0x0000_0003 && s[9] == 0x0000_0000 && s[10] == 0x7962_2d32 && s[11] == 0x0000_0000 &&
      s[12] == 0x0000_0000 && s[13] == 0x0000_0000 && s[14] == 0x0000_0000 && s[15] == 0x6b20_6574
  {
  }

  /** Block 3 after 0 double rounds. */
  lemma B3After0()
    ensures var s := DoubleRounds(InitBlock(TestKey, 0, 3), 0);
      IsBlock(s) &&
      s[0] == 0x6170_7865 && s[1] == 0x0000_0080 && s[2] == 0x0000_0000 && s[3] == 0x0000_0000 &&
      s[4] == 0x0000_0000 && s[5] == 0x3320_646e && s[6] == 0x0000_0000 && s[7] == 0x0000_0000 &&
      s[8] == 0x0000_0003 && s[9] == 0x0000_0000 && s[10] == 0x7962_2d32 && s[11] == 0x0000_0000 &&
      s[12] == 0x0000_0000 && s[13] == 0x0000_0000 && s[14] == 0x0000_0000 && s[15] == 0x6b20_6574
  {
    B3Init();
  }

  /** Block 3 after 1 double rounds. */
  lemma B3After1()
    ensures var s := DoubleRounds(InitBlock(TestKey, 0, 3), 1);
      IsBlock(s) &&
      s[0] == 0xb10d_aefd && s[1] == 0xa601_170d && s[2] == 0x0989_a8b9 && s[3] == 0xc7ca_6fc4 &&
      s[4] == 0x93b8_74be && s[5] == 0x6d36_9a38 && s[6] == 0x5b0a_6e9a && s[7] == 0xd566_ed88 &&
      s[8] == 0x6cdd_42dd && s[9] == 0x1b6b_73ef && s[10] == 0x60f1_8ceb && s[11] == 0xbad7_17eb &&
      s[12] == 0xeeb3_532a && s[13] == 0x6b86_2f5b && s[14] == 0x8146_327b && s[15] == 0x0768_7657
  {
    B3After0();
    DoubleRoundsNext(InitBlock(TestKey, 0, 3), 0);
    B3Col0(DoubleRounds(InitBlock(TestKey, 0, 3), 0));
    B3Row0(ColumnRound(DoubleRounds(InitBlock(TestKey, 0, 3), 0)));
  }

  /** Block 3 after 2 double rounds. */
  lemma B3After2()
    ensures var s := DoubleRounds(InitBlock(TestKey, 0, 3), 2);
      IsBlock(s) &&
      s[0] == 0xa9fc_93e6 && s[1] == 0xaea0_d818 && s[2] == 0x29f5_8901 && s[3] == 0x142e_75b7 &&
      s[4] == 0xc324_b2e1 && s[5] == 0x3ffe_e770 && s[6] == 0x890d_4e90 && s[7] == 0x2378_325e &&
      s[8] == 0x0a6f_5014 && s[9] == 0x313a_24fb && s[10] == 0x4a4a_fd89 && s[11] == 0xa27e_3c3b &&
      s[12] == 0x30b9_b620 && s[13] == 0x49e2_a026 && s[14] == 0xf673_3ff5 && s[15] == 0xa2ac_a2ee
  {
    B3After1();
    DoubleRoundsNext(InitBlock(TestKey, 0, 3), 1);
    B3Col1(DoubleRounds(InitBlock(TestKey, 0, 3), 1));
    B3Row1(ColumnRound(DoubleRounds(InitBlock(TestKey, 0, 3), 1)));
  }

  /** Block 3 after 3 double rounds. */
  lemma B3After3()
    ensures var s := DoubleRounds(InitBlock(TestKey, 0, 3), 3);
      IsBlock(s) &&
      s[0] == 0x11fd_ab09 && s[1] == 0xb343_e79c && s[2] == 0x8618_cc55 && s[3] == 0x173f_c63e &&
      s[4] == 0x7cf1_1f33 && s[5] == 0x461b_496c && s[6] == 0xd161_a784 && s[7] == 0xa49d_8001 &&
      s[8] == 0xddcf_6834 && s[9] == 0xae6c_0094 && s[10] == 0x8dbc_49be && s[11] == 0x22f7_1c1b &&
      s[12] == 0x1af4_bab7 && s[13] == 0xd958_73eb && s[14] == 0xff81_6d95 && s[15] == 0xbb34_bcb9
  {
    B3After2();
    DoubleRoundsNext(InitBlock(TestKey, 0, 3), 2);
    B3Col2(DoubleRounds(InitBlock(TestKey, 0, 3), 2));
    B3Row2(ColumnRound(DoubleRounds(InitBlock(TestKey, 0, 3), 2)));
  }

  /** Block 3 after 4 double rounds. */
  lemma B3After4()
    ensures var s := DoubleRounds(InitBlock(TestKey, 0, 3), 4);
      IsBlock(s) &&
      s[0] == 0x6f09_c9a7 && s[1] == 0x2575_8d56 && s[2] == 0xc69e_6417 && s[3] == 0x7cfe_11d3 &&
      s[4] == 0xf6bf_1dd7 && s[5] == 0x5e5a_bd78 && s[6] == 0xf345_3da8 && s[7] == 0x2452_5e3f &&
      s[8] == 0x096d_f8ba && s[9] == 0x4b88_32a1 && s[10] == 0x0aa2_f3e3 && s[11] == 0xa8dc_5b2b &&
      s[12] == 0xdc1a_0b6a && s[13] == 0x045c_8f56 && s[14] == 0xa221_d0b4 && s[15] == 0xbaed_d939
  {
    B3After3();
    DoubleRoundsNext(InitBlock(TestKey, 0, 3), 3);
    B3Col3(DoubleRounds(InitBlock(TestKey, 0, 3), 3));
    B3Row3(ColumnRound(DoubleRounds(InitBlock(TestKey, 0, 3), 3)));
  }

  /** Block 3 after 5 double rounds. */
  lemma B3After5()
    ensures var s := DoubleRounds(InitBlock(TestKey, 0, 3), 5);
      IsBlock(s) &&
      s[0] == 0xf56b_b0e5 && s[1] == 0x166e_850f && s[2] == 0x653b_e8a6 && s[3] == 0xd452_8c97 &&
      s[4] == 0x83a8_847b && s[5] == 0x80c7_d9d6 && s[6] == 0x5691_fe60 && s[7] == 0x31bd_2988 &&
      s[8] == 0x76fe_642f && s[9] == 0x0eab_45c4 && s[10] == 0x3577_8470 && s[11] == 0x0a27_0401 &&
      s[12] == 0xc3f3_18f2 && s[13] == 0x579d_af82 && s[14] == 0x4f37_9638 && s[15] == 0xb2c4_4183
  {
    B3After4();
    DoubleRoundsNext(InitBlock(TestKey, 0, 3), 4);
    B3Col4(DoubleRounds(InitBlock(TestKey, 0, 3), 4));
    B3Row4(ColumnRound(DoubleRounds(InitBlock(TestKey, 0, 3), 4)));
  }

  /** Block 3 after 6 double rounds. */
  lemma B3After6()
    ensures var s := DoubleRounds(InitBlock(TestKey, 0, 3), 6);
      IsBlock(s) &&
      s[0] == 0xdd78_ee24 && s[1] == 0x6580_5e07 && s[2] == 0x1a3a_6fac && s[3] == 0xf846_213e &&
      s[4] == 0x3ca9_5e3d && s[5] == 0x6cdf_233b && s[6] == 0xde6a_ed13 && s[7] == 0xae65_9616 &&
      s[8] == 0xa5fc_2732 && s[9] == 0x81f0_3a61 && s[10] == 0x6111_ba8e && s[11] == 0xc574_7c6e &&
      s[12] == 0xc5ca_2e64 && s[13] == 0x5af1_eb3f && s[14] == 0xc8c2_9a69 && s[15] == 0x95a0_f6b1
  {
    B3After5();
    DoubleRoundsNext(InitBlock(TestKey, 0, 3), 5);
    B3Col5(DoubleRounds(InitBlock(TestKey, 0, 3), 5));
    B3Row5(ColumnRound(DoubleRounds(InitBlock(TestKey, 0, 3), 5)));
  }

  /** Block 3 after 7 double rounds. */
  lemma B3After7()
    ensures var s := DoubleRounds(InitBlock(TestKey, 0, 3), 7);
      IsBlock(s) &&
      s[0] == 0xe146_2404 && s[1] == 0x0293_4a2e && s[2] == 0xe34a_b89a && s[3] == 0xb2a6_b228 &&
      s[4] == 0xc181_c57c && s[5] == 0xb730_c270 && s[6] == 0xa7a7_6f30 && s[7] == 0x50db_7606 &&
      s[8] == 0x8427_3e4c && s[9] == 0x115a_4dbd && s[10] == 0xa40c_7e14 && s[11] == 0x3186_bd0a &&
      s[12] == 0xbc84_b117 && s[13] == 0x9f62_93da && s[14] == 0x9e0f_618a && s[15] == 0x78f8_332f
  {
    B3After6();
    DoubleRoundsNext(InitBlock(TestKey, 0, 3), 6);
    B3Col6(DoubleRounds(InitBlock(TestKey, 0, 3), 6));
    B3Row6(ColumnRound(DoubleRounds(InitBlock(TestKey, 0, 3), 6)));
  }

  /** Block 3 after 8 double rounds. */
  lemma B3After8()
    ensures var s := DoubleRounds(InitBlock(TestKey, 0, 3), 8);
      IsBlock(s) &&
      s[0] == 0xa7e4_26ab && s[1] == 0x63aa_6a5a && s[2] == 0xdb1a_49dd && s[3] == 0x1b58_4925 &&
      s[4] == 0x7a8d_dca6 && s[5] == 0x57a7_40de && s[6] == 0x2fe2_020a && s[7] == 0x70c0_f12a &&
      s[8] == 0xdf14_47d7 && s[9] == 0xa024_67b0 && s[10] == 0x3e3b_5dfc && s[11] == 0x4b76_53ec &&
      s[12] == 0x3622_01c6 && s[13] == 0xbeb7_c400 && s[14] == 0x7f41_1d34 && s[15] == 0x95aa_d9d7
  {
    B3After7();
    DoubleRoundsNext(InitBlock(TestKey, 0, 3), 7);
    B3Col7(DoubleRounds(InitBlock(TestKey, 0, 3), 7));
    B3Row7(ColumnRound(DoubleRounds(InitBlock(TestKey, 0, 3), 7)));
  }

  /** Block 3 after 9 double rounds. */
  lemma B3After9()
    ensures var s := DoubleRounds(InitBlock(TestKey, 0, 3), 9);
      IsBlock(s) &&
      s[0] == 0x6246_ff6c && s[1] == 0x644d_f5f4 && s[2] == 0xb48e_c4b4 && s[3] == 0x1c9b_abce &&
      s[4] == 0x198e_bf53 && s[5] == 0xaa3d_e57c && s[6] == 0x943b_0b48 && s[7] == 0x4497_f572 &&
      s[8] == 0xfe24_a948 && s[9] == 0x189c_e4df && s[10] == 0x4b1e_e365 && s[11] == 0xfb6b_da20 &&
      s[12] == 0x962d_d463 && s[13] == 0x4ff2_8be2 && s[14] == 0x7df9_a2c7 && s[15] == 0x4114_fdb9
  {
    B3After8();
    DoubleRoundsNext(InitBlock(TestKey, 0, 3), 8);
    B3Col8(DoubleRounds(InitBlock(TestKey, 0, 3), 8));
    B3Row8(ColumnRound(DoubleRounds(InitBlock(TestKey, 0, 3), 8)));
  }

  /** Block 3 after 10 double rounds. */
  lemma B3After10()
    ensures var s := DoubleRounds(InitBlock(TestKey, 0, 3), 10);
      IsBlock(s) &&
      s[0] == 0x9311_45f2 && s[1] == 0xaed9_16fb && s[2] == 0x54f1_4f7c && s[3] == 0x103e_a729 &&
      s[4] == 0xed50_f2ac && s[5] == 0x0989_2bcc && s[6] == 0xa708_1371 && s[7] == 0xa916_624c &&
      s[8] == 0x12cd_84ea && s[9] == 0x8ef2_a76d && s[10] == 0x3d29_9258 && s[11] == 0xcae1_1735 &&
      s[12] == 0xf412_e798 && s[13] == 0x6a1a_2efb && s[14] == 0x73dc_9fed && s[15] == 0xac89_b9b5
  {
    B3After9();
    DoubleRoundsNext(InitBlock(TestKey, 0, 3), 9);
    B3Col9(DoubleRounds(InitBlock(TestKey, 0, 3), 9));
    B3Row9(ColumnRound(DoubleRounds(InitBlock(TestKey, 0, 3), 9)));
  }

  /** Keystream block 3 of the stub program, word by word. */
  lemma KeystreamBlock3()
    ensures var k := Keystream(TestKey, 0, 3);
      k[0] == 0xf481_be57 && k[1] == 0xaed9_177b && k[2] == 0x54f1_4f7c && k[3] == 0x103e_a729 &&
      k[4] == 0xed50_f2ac && k[5] == 0x3ca9_903a && k[6] == 0xa708_1371 && k[7] == 0xa916_624c &&
      k[8] == 0x12cd_84ed && k[9] == 0x8ef2_a76d && k[10] == 0xb68b_bf8a && k[11] == 0xcae1_1735 &&
      k[12] == 0xf412_e798 && k[13] == 0x6a1a_2efb && k[14] == 0x73dc_9fed && k[15] == 0x17aa_1f29
  {
    B3Init();
    B3After10();
  }

  /** The byte swap of the sixteen keystream words of block 3. */
  lemma B3Swapped()
    ensures LittleEndian(0xf481_be57) == 0x57be_81f4 && LittleEndian(0xaed9_177b) == 0x7b17_d9ae &&
      LittleEndian(0x54f1_4f7c) == 0x7c4f_f154 && LittleEndian(0x103e_a729) == 0x29a7_3e10 &&
      LittleEndian(0xed50_f2ac) == 0xacf2_50ed && LittleEndian(0x3ca9_903a) == 0x3a90_a93c &&
      LittleEndian(0xa708_1371) == 0x7113_08a7 && LittleEndian(0xa916_624c) == 0x4c62_16a9 &&
      LittleEndian(0x12cd_84ed) == 0xed84_cd12 && LittleEndian(0x8ef2_a76d) == 0x6da7_f28e &&
      LittleEndian(0xb68b_bf8a) == 0x8abf_8bb6 && LittleEndian(0xcae1_1735) == 0x3517_e1ca &&
      LittleEndian(0xf412_e798) == 0x98e7_12f4 && LittleEndian(0x6a1a_2efb) == 0xfb2e_1a6a &&
      LittleEndian(0x73dc_9fed) == 0xed9f_dc73 && LittleEndian(0x17aa_1f29) == 0x291f_aa17
  {
  }

  /** The printed words of block 3: the lines 57be81f47b17d9ae7c4ff15429a73e10, acf250ed3a90a93c711308a74c6216a9, ed84cd126da7f28e8abf8bb63517e1ca, 98e712f4fb2e1a6aed9fdc73291faa17. */
  lemma PrintedBlock3()
    ensures var k := Keystream(TestKey, 0, 3);
      LittleEndian(k[0]) == 0x57be_81f4 && LittleEndian(k[1]) == 0x7b17_d9ae && LittleEndian(k[2]) == 0x7c4f_f154 && LittleEndian(k[3]) == 0x29a7_3e10 &&
      LittleEndian(k[4]) == 0xacf2_50ed && LittleEndian(k[5]) == 0x3a90_a93c && LittleEndian(k[6]) == 0x7113_08a7 && LittleEndian(k[7]) == 0x4c62_16a9 &&
      LittleEndian(k[8]) == 0xed84_cd12 && LittleEndian(k[9]) == 0x6da7_f28e && LittleEndian(k[10]) == 0x8abf_8bb6 && LittleEndian(k[11]) == 0x3517_e1ca &&
      LittleEndian(k[12]) == 0x98e7_12f4 && LittleEndian(k[13]) == 0xfb2e_1a6a && LittleEndian(k[14]) == 0xed9f_dc73 && LittleEndian(k[15]) == 0x291f_aa17
  {
    KeystreamBlock3();
    B3Swapped();
  }

  /** The column round of double round 0 of block 4. */
  lemma B4Col0(s: seq<bv32>)
    requires IsBlock(s)
    requires s[0] == 0x6170_7865 && s[1] == 0x0000_0080 && s[2] == 0x0000_0000 && s[3] == 0x0000_0000 &&
      s[4] == 0x0000_0000 && s[5] == 0x3320_646e && s[6] == 0x0000_0000 && s[7] == 0x0000_0000 &&
      s[8] == 0x0000_0004 && s[9] == 0x0000_0000 && s[10] == 0x7962_2d32 && s[11] == 0x0000_0000 &&
      s[12] == 0x0000_0000 && s[13] == 0x0000_0000 && s[14] == 0x0000_0000 && s[15] == 0x6b20_6574
    ensures var r := ColumnRound(s);
      r[0] == 0x50d6_eba9 && r[1] == 0x30d3_e63d && r[2] == 0xf18c_dc54 && r[3] == 0x9032_ba35 &&
      r[4] == 0xb83c_32b0 && r[5] == 0xe42f_3e45 && r[6] == 0x6eb2_1454 && r[7] == 0xa63f_53f6 &&
      r[8] == 0x5956_2a37 && r[9] == 0x9032_7719 && r[10] == 0xbbc3_adc9 && r[11] == 0x41c5_66ce &&
      r[12] == 0x4b9c_e232 && r[13] == 0xa5b7_0f86 && r[14] == 0xb116_993c && r[15] == 0x8033_c566
  {
    ColumnRoundSteps(s);
    var t1 := QuarterRound(s, 0, 4, 8, 12);
    Quarter(s, 0, 4, 8, 12);
    assert t1[4] == 0xb83c_32b0 && t1[8] == 0x5956_2a37 && t1[12] == 0x4b9c_e232 && t1[0] == 0x50d6_eba9;
    var t2 := QuarterRound(t1, 5, 9, 13, 1);
    Quarter(t1, 5, 9, 13, 1);
    assert t2[9] == 0x9032_7719 && t2[13] == 0xa5b7_0f86 && t2[1] == 0x30d3_e63d && t2[5] == 0xe42f_3e45;
    var t3 := QuarterRound(t2, 10, 14, 2, 6);
    Quarter(t2, 10, 14, 2, 6);
    assert t3[14] == 0xb116_993c && t3[2] == 0xf18c_dc54 && t3[6] == 0x6eb2_1454 && t3[10] == 0xbbc3_adc9;
    var t4 := QuarterRound(t3, 15, 3, 7, 11);
    Quarter(t3, 15, 3, 7, 11);
    assert t4[3] == 0x9032_ba35 && t4[7] == 0xa63f_53f6 && t4[11] == 0x41c5_66ce && t4[15] == 0x8033_c566;
  }

  /** The row round of double round 0 of block 4. */
  lemma B4Row0(s: seq<bv32>)
    requires IsBlock(s)
    requires s[0] == 0x50d6_eba9 && s[1] == 0x30d3_e63d && s[2] == 0xf18c_dc54 && s[3] == 0x9032_ba35 &&
      s[4] == 0xb83c_32b0 && s[5] == 0xe42f_3e45 && s[6] == 0x6eb2_1454 && s[7] == 0xa63f_53f6 &&
      s[8] == 0x5956_2a37 && s[9] == 0x9032_7719 && s[10] == 0xbbc3_adc9 && s[11] == 0x41c5_66ce &&
      s[12] == 0x4b9c_e232 && s[13] == 0xa5b7_0f86 && s[14] == 0xb116_993c && s[15] == 0x8033_c566
    ensures var r := RowRound(s);
      r[0] == 0xf38c_3e1d && r[1] == 0xb401_094d && r[2] == 0x5e65_305d && r[3] == 0x5707_f879 &&
      r[4] == 0x93b8_74be && r[5] == 0x6d36_9a38 && r[6] == 0x5b0a_6e9a && r[7] == 0xd566_ed88 &&
      r[8] == 0x6cdd_42da && r[9] == 0x1b6a_d3ef && r[10] == 0xe0e5_8ce9 && r[11] == 0xbad7_17eb &&
      r[12] == 0xeeb3_b32a && r[13] == 0x6b46_2f5b && r[14] == 0x8d46_3203 && r[15] == 0x0548_2757
  {
    RowRoundSteps(s);
    var t1 := QuarterRound(s, 0, 1, 2, 3);
    Quarter(s, 0, 1, 2, 3);
    assert t1[1] == 0xb401_094d && t1[2] == 0x5e65_305d && t1[3] == 0x5707_f879 && t1[0] == 0xf38c_3e1d;
    var t2 := QuarterRound(t1, 5, 6, 7, 4);
    Quarter(t1, 5, 6, 7, 4);
    assert t2[6] == 0x5b0a_6e9a && t2[7] == 0xd566_ed88 && t2[4] == 0x93b8_74be && t2[5] == 0x6d36_9a38;
    var t3 := QuarterRound(t2, 10, 11, 8, 9);
    Quarter(t2, 10, 11, 8, 9);
    assert t3[11] == 0xbad7_17eb && t3[8] == 0x6cdd_42da && t3[9] == 0x1b6a_d3ef && t3[10] == 0xe0e5_8ce9;
    var t4 := QuarterRound(t3, 15, 12, 13, 14);
    Quarter(t3, 15, 12, 13, 14);
    assert t4[12] == 0xeeb3_b32a && t4[13] == 0x6b46_2f5b && t4[14] == 0x8d46_3203 && t4[15] == 0x0548_2757;
  }

  /** The column round of double round 1 of block 4. */
  lemma B4Col1(s: seq<bv32>)
    requires IsBlock(s)
    requires s[0] == 0xf38c_3e1d && s[1] == 0xb401_094d && s[2] == 0x5e65_305d && s[3] == 0x5707_f879 &&
      s[4] == 0x93b8_74be && s[5] == 0x6d36_9a38 && s[6] == 0x5b0a_6e9a && s[7] == 0xd566_ed88 &&
      s[8] == 0x6cdd_42da && s[9] == 0x1b6a_d3ef && s[10] == 0xe0e5_8ce9 && s[11] == 0xbad7_17eb &&
      s[12] == 0xeeb3_b32a && s[13] == 0x6b46_2f5b && s[14] == 0x8d46_3203 && s[15] == 0x0548_2757
    ensures var r := ColumnRound(s);
      r[0] == 0x0647_604f && r[1] == 0x3e3e_e854 && r[2] == 0x1d64_3eea && r[3] == 0x5898_5919 &&
      r[4] == 0x8c40_d74f && r[5] == 0xce65_8378 && r[6] == 0x5d5b_7d9e && r[7] == 0x1466_0d33 &&
      r[8] == 0xf6f7_9a25 && r[9] == 0x80bb_117f && r[10] == 0x12c4_6617 && r[11] == 0x761e_9a74 &&
      r[12] == 0xe09d_234d && r[13] == 0x8811_4080 && r[14] == 0x7abb_f39e && r[15] == 0x9bd6_0d45
  {
    ColumnRoundSteps(s);
    var t1 := QuarterRound(s, 0, 4, 8, 12);
    Quarter(s, 0, 4, 8, 12);
    assert t1[4] == 0x8c40_d74f && t1[8] == 0xf6f7_9a25 && t1[12] == 0xe09d_234d && t1[0] == 0x0647_604f;
    var t2 := QuarterRound(t1, 5, 9, 13, 1);
    Quarter(t1, 5, 9, 13, 1);
    assert t2[9] == 0x80bb_117f && t2[13] == 0x8811_4080 && t2[1] == 0x3e3e_e854 && t2[5] == 0xce65_8378;
    var t3 := QuarterRound(t2, 10, 14, 2, 6);
    Quarter(t2, 10, 14, 2, 6);
    assert t3[14] == 0x7abb_f39e && t3[2] == 0x1d64_3eea && t3[6] == 0x5d5b_7d9e && t3[10] == 0x12c4_6617;
    var t4 := QuarterRound(t3, 15, 3, 7, 11);
    Quarter(t3, 15, 3, 7, 11);
    assert t4[3] == 0x5898_5919 && t4[7] == 0x1466_0d33 && t4[11] == 0x761e_9a74 && t4[15] == 0x9bd6_0d45;
  }

  /** The row round of double round 1 of block 4. */
  lemma B4Row1(s: seq<bv32>)
    requires IsBlock(s)
    requires s[0] == 0x0647_604f && s[1] == 0x3e3e_e854 && s[2] == 0x1d64_3eea && s[3] == 0x5898_5919 &&
      s[4] == 0x8c40_d74f && s[5] == 0xce65_8378 && s[6] == 0x5d5b_7d9e && s[7] == 0x1466_0d33 &&
      s[8] == 0xf6f7_9a25 && s[9] == 0x80bb_117f && s[10] == 0x12c4_6617 && s[11] == 0x761e_9a74 &&
      s[12] == 0xe09d_234d && s[13] == 0x8811_4080 && s[14] == 0x7abb_f39e && s[15] == 0x9bd6_0d45
    ensures var r := RowRound(s);
      r[0] == 0x5b89_f9cd && r[1] == 0x51e2_5c7b && r[2] == 0x4e1d_aa5a && r[3] == 0x5842_ed19 &&
      r[4] == 0xe357_617c && r[5] == 0x3e7f_9a8a && r[6] == 0x0e76_1e33 && r[7] == 0xa325_5a8a &&
      r[8] == 0x2599_339d && r[9] == 0x5020_4c98 && r[10] == 0x1211_b0f1 && r[11] == 0xc9a5_513d &&
      r[12] == 0xa99d_52c6 && r[13] == 0x6ed1_560a && r[14] == 0xafa1_f093 && r[15] == 0x81a2_7488
  {
    RowRoundSteps(s);
    var t1 := QuarterRound(s, 0, 1, 2, 3);
    Quarter(s, 0, 1, 2, 3);
    assert t1[1] == 0x51e2_5c7b && t1[2] == 0x4e1d_aa5a && t1[3] == 0x5842_ed19 && t1[0] == 0x5b89_f9cd;
    var t2 := QuarterRound(t1, 5, 6, 7, 4);
    Quarter(t1, 5, 6, 7, 4);
    assert t2[6] == 0x0e76_1e33 && t2[7] == 0xa325_5a8a && t2[4] == 0xe357_617c && t2[5] == 0x3e7f_9a8a;
    var t3 := QuarterRound(t2, 10, 11, 8, 9);
    Quarter(t2, 10, 11, 8, 9);
    assert t3[11] == 0xc9a5_513d && t3[8] == 0x2599_339d && t3[9] == 0x5020_4c98 && t3[10] == 0x1211_b0f1;
    var t4 := QuarterRound(t3, 15, 12, 13, 14);
    Quarter(t3, 15, 12, 13, 14);
    assert t4[12] == 0xa99d_52c6 && t4[13] == 0x6ed1_560a && t4[14] == 0xafa1_f093 && t4[15] == 0x81a2_7488;
  }

  /** The column round of double round 2 of block 4. */
  lemma B4Col2(s: seq<bv32>)
    requires IsBlock(s)
    requires s[0] == 0x5b89_f9cd && s[1] == 0x51e2_5c7b && s[2] == 0x4e1d_aa5a && s[3] == 0x5842_ed19 &&
      s[4] == 0xe357_617c && s[5] == 0x3e7f_9a8a && s[6] == 0x0e76_1e33 && s[7] == 0xa325_5a8a &&
      s[8] == 0x2599_339d && s[9] == 0x5020_4c98 && s[10] == 0x1211_b0f1 && s[11] == 0xc9a5_513d &&
      s[12] == 0xa99d_52c6 && s[13] == 0x6ed1_560a && s[14] == 0xafa1_f093 && s[15] == 0x81a2_7488
    ensures var r := ColumnRound(s);
      r[0] == 0x221a_69aa && r[1] == 0xc7d2_db60 && r[2] == 0xfe3b_43a6 && r[3] == 0xfba0_0fbc &&
      r[4] == 0x70f1_28fe && r[5] == 0xc42d_e5c4 && r[6] == 0x3ab3_2363 && r[7] == 0x262d_d270 &&
      r[8] == 0xd3dc_a405 && r[9] == 0x60db_ce50 && r[10] == 0x8e35_5348 && r[11] == 0x75e0_d504 &&
      r[12] == 0x103d_3a5f && r[13] == 0xd800_e334 && r[14] == 0xec46_6283 && r[15] == 0x1c70_04b2
  {
    ColumnRoundSteps(s);
    var t1 := QuarterRound(s, 0, 4, 8, 12);
    Quarter(s, 0, 4, 8, 12);
    assert t1[4] == 0x70f1_28fe && t1[8] == 0xd3dc_a405 && t1[12] == 0x103d_3a5f && t1[0] == 0x221a_69aa;
    var t2 := QuarterRound(t1, 5, 9, 13, 1);
    Quarter(t1, 5, 9, 13, 1);
    assert t2[9] == 0x60db_ce50 && t2[13] == 0xd800_e334 && t2[1] == 0xc7d2_db60 && t2[5] == 0xc42d_e5c4;
    var t3 := QuarterRound(t2, 10, 14, 2, 6);
    Quarter(t2, 10, 14, 2, 6);
    assert t3[14] == 0xec46_6283 && t3[2] == 0xfe3b_43a6 && t3[6] == 0x3ab3_2363 && t3[10] == 0x8e35_5348;
    var t4 := QuarterRound(t3, 15, 3, 7, 11);
    Quarter(t3, 15, 3, 7, 11);
    assert t4[3] == 0xfba0_0fbc && t4[7] == 0x262d_d270 && t4[11] == 0x75e0_d504 && t4[15] == 0x1c70_04b2;
  }

  /** The row round of double round 2 of block 4. */
  lemma B4Row2(s: seq<bv32>)
    requires IsBlock(s)
    requires s[0] == 0x221a_69aa && s[1] == 0xc7d2_db60 && s[2] == 0xfe3b_43a6 && s[3] == 0xfba0_0fbc &&
      s[4] == 0x70f1_28fe && s[5] == 0xc42d_e5c4 && s[6] == 0x3ab3_2363 && s[7] == 0x262d_d270 &&
      s[8] == 0xd3dc_a405 && s[9] == 0x60db_ce50 && s[10] == 0x8e35_5348 && s[11] == 0x75e0_d504 &&
      s[12] == 0x103d_3a5f && s[13] == 0xd800_e334 && s[14] == 0xec46_6283 && s[15] == 0x1c70_04b2
    ensures var r := RowRound(s);
      r[0] == 0x293e_d689 && r[1] == 0x1aee_686e && r[2] == 0xef9f_73dc && r[3] == 0x4029_4eed &&
      r[4] == 0x4dae_5a08 && r[5] == 0xce05_2574 && r[6] == 0xb534_4279 && r[7] == 0xe27d_a882 &&
      r[8] == 0x9905_d312 && r[9] == 0xdd4b_7c9e && r[10] == 0xb0f4_8a0d && r[11] == 0xfd70_1973 &&
      r[12] == 0x4b0e_a0db && r[13] == 0x254b_f9fa && r[14] == 0xbf1c_cc88 && r[15] == 0x067b_9511
  {
    RowRoundSteps(s);
    var t1 := QuarterRound(s, 0, 1, 2, 3);
    Quarter(s, 0, 1, 2, 3);
    assert t1[1] == 0x1aee_686e && t1[2] == 0xef9f_73dc && t1[3] == 0x4029_4eed && t1[0] == 0x293e_d689;
    var t2 := QuarterRound(t1, 5, 6, 7, 4);
    Quarter(t1, 5, 6, 7, 4);
    assert t2[6] == 0xb534_4279 && t2[7] == 0xe27d_a882 && t2[4] == 0x4dae_5a08 && t2[5] == 0xce05_2574;
    var t3 := QuarterRound(t2, 10, 11, 8, 9);
    Quarter(t2, 10, 11, 8, 9);
    assert t3[11] == 0xfd70_1973 && t3[8] == 0x9905_d312 && t3[9] == 0xdd4b_7c9e && t3[10] == 0xb0f4_8a0d;
    var t4 := QuarterRound(t3, 15, 12, 13, 14);
    Quarter(t3, 15, 12, 13, 14);
    assert t4[12] == 0x4b0e_a0db && t4[13] == 0x254b_f9fa && t4[14] == 0xbf1c_cc88 && t4[15] == 0x067b_9511;
  }

  /** The column round of double round 3 of block 4. */
  lemma B4Col3(s: seq<bv32>)
    requires IsBlock(s)
    requires s[0] == 0x293e_d689 && s[1] == 0x1aee_686e && s[2] == 0xef9f_73dc && s[3] == 0x4029_4eed &&
      s[4] == 0x4dae_5a08 && s[5] == 0xce05_2574 && s[6] == 0xb534_4279 && s[7] == 0xe27d_a882 &&
      s[8] == 0x9905_d312 && s[9] == 0xdd4b_7c9e && s[10] == 0xb0f4_8a0d && s[11] == 0xfd70_1973 &&
      s[12] == 0x4b0e_a0db && s[13] == 0x254b_f9fa && s[14] == 0xbf1c_cc88 && s[15] == 0x067b_9511
    ensures var r := ColumnRound(s);
      r[0] == 0x76ad_fd66 && r[1] == 0x408f_5cf9 && r[2] == 0x31ac_e364 && r[3] == 0xb5fe_0cec &&
      r[4] == 0x6b15_e832 && r[5] == 0x4664_2786 && r[6] == 0x5b57_b9dd && r[7] == 0x113e_53fa &&
      r[8] == 0x3078_a43a && r[9] == 0xa48d_8dea && r[10] == 0xc5f2_be1f && r[11] == 0x716c_c194 &&
      r[12] == 0x9a83_33aa && r[13] == 0x002d_451f && r[14] == 0xab7a_8fbb && r[15] == 0x5041_9fbd
  {
    ColumnRoundSteps(s);
    var t1 := QuarterRound(s, 0, 4, 8, 12);
    Quarter(s, 0, 4, 8, 12);
    assert t1[4] == 0x6b15_e832 && t1[8] == 0x3078_a43a && t1[12] == 0x9a83_33aa && t1[0] == 0x76ad_fd66;
    var t2 := QuarterRound(t1, 5, 9, 13, 1);
    Quarter(t1, 5, 9, 13, 1);
    assert t2[9] == 0xa48d_8dea && t2[13] == 0x002d_451f && t2[1] == 0x408f_5cf9 && t2[5] == 0x4664_2786;
    var t3 := QuarterRound(t2, 10, 14, 2, 6);
    Quarter(t2, 10, 14, 2, 6);
    assert t3[14] == 0xab7a_8fbb && t3[2] == 0x31ac_e364 && t3[6] == 0x5b57_b9dd && t3[10] == 0xc5f2_be1f;
    var t4 := QuarterRound(t3, 15, 3, 7, 11);
    Quarter(t3, 15, 3, 7, 11);
    assert t4[3] == 0xb5fe_0cec && t4[7] == 0x113e_53fa && t4[11] == 0x716c_c194 && t4[15] == 0x5041_9fbd;
  }

  /** The row round of double round 3 of block 4. */
  lemma B4Row3(s: seq<bv32>)
    requires IsBlock(s)
    requires s[0] == 0x76ad_fd66 && s[1] == 0x408f_5cf9 && s[2] == 0x31ac_e364 && s[3] == 0xb5fe_0cec &&
      s[4] == 0x6b15_e832 && s[5] == 0x4664_2786 && s[6] == 0x5b57_b9dd && s[7] == 0x113e_53fa &&
      s[8] == 0x3078_a43a && s[9] == 0xa48d_8dea && s[10] == 0xc5f2_be1f && s[11] == 0x716c_c194 &&
      s[12] == 0x9a83_33aa && s[13] == 0x002d_451f && s[14] == 0xab7a_8fbb && s[15] == 0x5041_9fbd
    ensures var r := RowRound(s);
      r[0] == 0xccfc_7091 && r[1] == 0x168a_75ef && r[2] == 0x414a_487e && r[3] == 0x2233_a616 &&
      r[4] == 0xfe70_e3fc && r[5] == 0xe019_fdd2 && r[6] == 0xe650_6585 && r[7] == 0x7824_45a3 &&
      r[8] == 0x4b7e_25d4 && r[9] == 0xb9d3_2273 && r[10] == 0xe4ee_ab5a && r[11] == 0x314a_c521 &&
      r[12] == 0x4494_8fd7 && r[13] == 0xac72_6c36 && r[14] == 0x74fb_319b && r[15] == 0x2705_1a0b
  {
    RowRoundSteps(s);
    var t1 := QuarterRound(s, 0, 1, 2, 3);
    Quarter(s, 0, 1, 2, 3);
    assert t1[1] == 0x168a_75ef && t1[2] == 0x414a_487e && t1[3] == 0x2233_a616 && t1[0] == 0xccfc_7091;
    var t2 := QuarterRound(t1, 5, 6, 7, 4);
    Quarter(t1, 5, 6, 7, 4);
    assert t2[6] == 0xe650_6585 && t2[7] == 0x7824_45a3 && t2[4] == 0xfe70_e3fc && t2[5] == 0xe019_fdd2;
    var t3 := QuarterRound(t2, 10, 11, 8, 9);
    Quarter(t2, 10, 11, 8, 9);
    assert t3[11] == 0x314a_c521 && t3[8] == 0x4b7e_25d4 && t3[9] == 0xb9d3_2273 && t3[10] == 0xe4ee_ab5a;
    var t4 := QuarterRound(t3, 15, 12, 13, 14);
    Quarter(t3, 15, 12, 13, 14);
    assert t4[12] == 0x4494_8fd7 && t4[13] == 0xac72_6c36 && t4[14] == 0x74fb_319b && t4[15] == 0x2705_1a0b;
  }

  /** The column round of double round 4 of block 4. */
  lemma B4Col4(s: seq<bv32>)
    requires IsBlock(s)
    requires s[0] == 0xccfc_7091 && s[1] == 0x168a_75ef && s[2] == 0x414a_487e && s[3] == 0x2233_a616 &&
      s[4] == 0xfe70_e3fc && s[5] == 0xe019_fdd2 && s[6] == 0xe650_6585 && s[7] == 0x7824_45a3 &&
      s[8] == 0x4b7e_25d4 && s[9] == 0xb9d3_2273 && s[10] == 0xe4ee_ab5a && s[11] == 0x314a_c521 &&
      s[12] == 0x4494_8fd7 && s[13] == 0xac72_6c36 && s[14] == 0x74fb_319b && s[15] == 0x2705_1a0b
    ensures var r := ColumnRound(s);
      r[0] == 0x5687_29ff && r[1] == 0xa50c_a7d4 && r[2] == 0x8559_f9de && r[3] == 0x05dc_303a &&
      r[4] == 0x36f0_d7f4 && r[5] == 0xe610_d62c && r[6] == 0x4d5b_eb9c && r[7] == 0xbab0_cffa &&
      r[8] == 0x91ef_2fd3 && r[9] == 0xebea_c288 && r[10] == 0x7105_e18d && r[11] == 0x914c_5d30 &&
      r[12] == 0x446c_76cb && r[13] == 0xa5f2_d9ae && r[14] == 0xeb73_5e7e && r[15] == 0x93ac_35ff
  {
    ColumnRoundSteps(s);
    var t1 := QuarterRound(s, 0, 4, 8, 12);
    Quarter(s, 0, 4, 8, 12);
    assert t1[4] == 0x36f0_d7f4 && t1[8] == 0x91ef_2fd3 && t1[12] == 0x446c_76cb && t1[0] == 0x5687_29ff;
    var t2 := QuarterRound(t1, 5, 9, 13, 1);
    Quarter(t1, 5, 9, 13, 1);
    assert t2[9] == 0xebea_c288 && t2[13] == 0xa5f2_d9ae && t2[1] == 0xa50c_a7d4 && t2[5] == 0xe610_d62c;
    var t3 := QuarterRound(t2, 10, 14, 2, 6);
    Quarter(t2, 10, 14, 2, 6);
    assert t3[14] == 0xeb73_5e7e && t3[2] == 0x8559_f9de && t3[6] == 0x4d5b_eb9c && t3[10] == 0x7105_e18d;
    var t4 := QuarterRound(t3, 15, 3, 7, 11);
    Quarter(t3, 15, 3, 7, 11);
    assert t4[3] == 0x05dc_303a && t4[7] == 0xbab0_cffa && t4[11] == 0x914c_5d30 && t4[15] == 0x93ac_35ff;
  }

  /** The row round of double round 4 of block 4. */
  lemma B4Row4(s: seq<bv32>)
    requires IsBlock(s)
    requires s[0] == 0x5687_29ff && s[1] == 0xa50c_a7d4 && s[2] == 0x8559_f9de && s[3] == 0x05dc_303a &&
      s[4] == 0x36f0_d7f4 && s[5] == 0xe610_d62c && s[6] == 0x4d5b_eb9c && s[7] == 0xbab0_cffa &&
      s[8] == 0x91ef_2fd3 && s[9] == 0xebea_c288 && s[10] == 0x7105_e18d && s[11] == 0x914c_5d30 &&
      s[12] == 0x446c_76cb && s[13] == 0xa5f2_d9ae && s[14] == 0xeb73_5e7e && s[15] == 0x93ac_35ff
    ensures var r := RowRound(s);
      r[0] == 0x4a16_ee01 && r[1] == 0x94a1_bb7a && r[2] == 0xd493_0a08 && r[3] == 0x9d6c_7d1c &&
      r[4] == 0x2335_3e20 && r[5] == 0x24e6_470f && r[6] == 0xcd8c_fb92 && r[7] == 0x8113_b29d &&
      r[8] == 0xd99d_7967 && r[9] == 0x91ca_7adf && r[10] == 0xa01c_4c12 && r[11] == 0xe91e_579e &&
      r[12] == 0xcba6_4874 && r[13] == 0x010e_3f10 && r[14] == 0x7b83_c7e8 && r[15] == 0x884d_c7b7
  {
    RowRoundSteps(s);
    var t1 := QuarterRound(s, 0, 1, 2, 3);
    Quarter(s, 0, 1, 2, 3);
    assert t1[1] == 0x94a1_bb7a && t1[2] == 0xd493_0a08 && t1[3] == 0x9d6c_7d1c && t1[0] == 0x4a16_ee01;
    var t2 := QuarterRound(t1, 5, 6, 7, 4);
    Quarter(t1, 5, 6, 7, 4);
    assert t2[6] == 0xcd8c_fb92 && t2[7] == 0x8113_b29d && t2[4] == 0x2335_3e20 && t2[5] == 0x24e6_470f;
    var t3 := QuarterRound(t2, 10, 11, 8, 9);
    Quarter(t2, 10, 11, 8, 9);
    assert t3[11] == 0xe91e_579e && t3[8] == 0xd99d_7967 && t3[9] == 0x91ca_7adf && t3[10] == 0xa01c_4c12;
    var t4 := QuarterRound(t3, 15, 12, 13, 14);
    Quarter(t3, 15, 12, 13, 14);
    assert t4[12] == 0xcba6_4874 && t4[13] == 0x010e_3f10 && t4[14] == 0x7b83_c7e8 && t4[15] == 0x884d_c7b7;
  }

  /** The column round of double round 5 of block 4. */
  lemma B4Col5(s: seq<bv32>)
    requires IsBlock(s)
    requires s[0] == 0x4a16_ee01 && s[1] == 0x94a1_bb7a && s[2] == 0xd493_0a08 && s[3] == 0x9d6c_7d1c &&
      s[4] == 0x2335_3e20 && s[5] == 0x24e6_470f && s[6] == 0xcd8c_fb92 && s[7] == 0x8113_b29d &&
      s[8] == 0xd99d_7967 && s[9] == 0x91ca_7adf && s[10] == 0xa01c_4c12 && s[11] == 0xe91e_579e &&
      s[12] == 0xcba6_4874 && s[13] == 0x010e_3f10 && s[14] == 0x7b83_c7e8 && s[15] == 0x884d_c7b7
    ensures var r := ColumnRound(s);
      r[0] == 0x8c77_98b1 && r[1] == 0x7f9c_ad83 && r[2] == 0xac50_ea96 && r[3] == 0x2b63_d7a4 &&
      r[4] == 0xfdae_04aa && r[5] == 0x0145_c18c && r[6] == 0xed82_70fc && r[7] == 0xe22d_05fa &&
      r[8] == 0x5078_2fe8 && r[9] == 0x55cb_3e03 && r[10] == 0xce56_2b5f && r[11] == 0xf2ad_962c &&
      r[12] == 0x0d34_01b0 && r[13] == 0x6204_1be5 && r[14] == 0xaf20_15de && r[15] == 0xf8d6_94dd
  {
    ColumnRoundSteps(s);
    var t1 := QuarterRound(s, 0, 4, 8, 12);
    Quarter(s, 0, 4, 8, 12);
    assert t1[4] == 0xfdae_04aa && t1[8] == 0x5078_2fe8 && t1[12] == 0x0d34_01b0 && t1[0] == 0x8c77_98b1;
    var t2 := QuarterRound(t1, 5, 9, 13, 1);
    Quarter(t1, 5, 9, 13, 1);
    assert t2[9] == 0x55cb_3e03 && t2[13] == 0x6204_1be5 && t2[1] == 0x7f9c_ad83 && t2[5] == 0x0145_c18c;
    var t3 := QuarterRound(t2, 10, 14, 2, 6);
    Quarter(t2, 10, 14, 2, 6);
    assert t3[14] == 0xaf20_15de && t3[2] == 0xac50_ea96 && t3[6] == 0xed82_70fc && t3[10] == 0xce56_2b5f;
    var t4 := QuarterRound(t3, 15, 3, 7, 11);
    Quarter(t3, 15, 3, 7, 11);
    assert t4[3] == 0x2b63_d7a4 && t4[7] == 0xe22d_05fa && t4[11] == 0xf2ad_962c && t4[15] == 0xf8d6_94dd;
  }

  /** The row round of double round 5 of block 4. */
  lemma B4Row5(s: seq<bv32>)
    requires IsBlock(s)
    requires s[0] == 0x8c77_98b1 && s[1] == 0x7f9c_ad83 && s[2] == 0xac50_ea96 && s[3] == 0x2b63_d7a4 &&
      s[4] == 0xfdae_04aa && s[5] == 0x0145_c18c && s[6] == 0xed82_70fc && s[7] == 0xe22d_05fa &&
      s[8] == 0x5078_2fe8 && s[9] == 0x55cb_3e03 && s[10] == 0xce56_2b5f && s[11] == 0xf2ad_962c &&
      s[12] == 0x0d34_01b0 && s[13] == 0x6204_1be5 && s[14] == 0xaf20_15de && s[15] == 0xf8d6_94dd
    ensures var r := RowRound(s);
      r[0] == 0x3c43_2563 && r[1] == 0x9224_8758 && r[2] == 0x9410_f8ab && r[3] == 0x9b63_b362 &&
      r[4] == 0xed64_8cb1 && r[5] == 0x9f4f_a6e2 && r[6] == 0x9461_6b83 && r[7] == 0xac77_1ad1 &&
      r[8] == 0x8edd_1488 && r[9] == 0x92b3_f01d && r[10] == 0xdcc2_ad1b && r[11] == 0xe219_273e &&
      r[12] == 0xf661_5c63 && r[13] == 0x0de6_9a3b && r[14] == 0x51f3_d556 && r[15] == 0x4693_ebb4
  {
    RowRoundSteps(s);
    var t1 := QuarterRound(s, 0, 1, 2, 3);
    Quarter(s, 0, 1, 2, 3);
    assert t1[1] == 0x9224_8758 && t1[2] == 0x9410_f8ab && t1[3] == 0x9b63_b362 && t1[0] == 0x3c43_2563;
    var t2 := QuarterRound(t1, 5, 6, 7, 4);
    Quarter(t1, 5, 6, 7, 4);
    assert t2[6] == 0x9461_6b83 && t2[7] == 0xac77_1ad1 && t2[4] == 0xed64_8cb1 && t2[5] == 0x9f4f_a6e2;
    var t3 := QuarterRound(t2, 10, 11, 8, 9);
    Quarter(t2, 10, 11, 8, 9);
    assert t3[11] == 0xe219_273e && t3[8] == 0x8edd_1488 && t3[9] == 0x92b3_f01d && t3[10] == 0xdcc2_ad1b;
    var t4 := QuarterRound(t3, 15, 12, 13, 14);
    Quarter(t3, 15, 12, 13, 14);
    assert t4[12] == 0xf661_5c63 && t4[13] == 0x0de6_9a3b && t4[14] == 0x51f3_d556 && t4[15] == 0x4693_ebb4;
  }

  /** The column round of double round 6 of block 4. */
  lemma B4Col6(s: seq<bv32>)
    requires IsBlock(s)
    requires s[0] == 0x3c43_2563 && s[1] == 0x9224_8758 && s[2] == 0x9410_f8ab && s[3] == 0x9b63_b362 &&
      s[4] == 0xed64_8cb1 && s[5] == 0x9f4f_a6e2 && s[6] == 0x9461_6b83 && s[7] == 0xac77_1ad1 &&
      s[8] == 0x8edd_1488 && s[9] == 0x92b3_f01d && s[10] == 0xdcc2_ad1b && s[11] == 0xe219_273e &&
      s[12] == 0xf661_5c63 && s[13] == 0x0de6_9a3b && s[14] == 0x51f3_d556 && s[15] == 0x4693_ebb4
    ensures var r := ColumnRound(s);
      r[0] == 0x42b8_4291 && r[1] == 0x5a73_a6f4 && r[2] == 0x109f_ebea && r[3] == 0xcdea_ca76 &&
      r[4] == 0xbf24_6fa8 && r[5] == 0x6def_5a31 && r[6] == 0x64aa_7110 && r[7] == 0x511b_4ef9 &&
      r[8] == 0x41f7_037e && r[9] == 0x28a4_ed05 && r[10] == 0xaf2b_7832 && r[11] == 0x2134_c4de &&
      r[12] == 0x9805_9c40 && r[13] == 0xe4c1_55b4 && r[14] == 0xc3ff_9a6e && r[15] == 0x09ce_22f4
  {
    ColumnRoundSteps(s);
    var t1 := QuarterRound(s, 0, 4, 8, 12);
    Quarter(s, 0, 4, 8, 12);
    assert t1[4] == 0xbf24_6fa8 && t1[8] == 0x41f7_037e && t1[12] == 0x9805_9c40 && t1[0] == 0x42b8_4291;
    var t2 := QuarterRound(t1, 5, 9, 13, 1);
    Quarter(t1, 5, 9, 13, 1);
    assert t2[9] == 0x28a4_ed05 && t2[13] == 0xe4c1_55b4 && t2[1] == 0x5a73_a6f4 && t2[5] == 0x6def_5a31;
    var t3 := QuarterRound(t2, 10, 14, 2, 6);
    Quarter(t2, 10, 14, 2, 6);
    assert t3[14] == 0xc3ff_9a6e && t3[2] == 0x109f_ebea && t3[6] == 0x64aa_7110 && t3[10] == 0xaf2b_7832;
    var t4 := QuarterRound(t3, 15, 3, 7, 11);
    Quarter(t3, 15, 3, 7, 11);
    assert t4[3] == 0xcdea_ca76 && t4[7] == 0x511b_4ef9 && t4[11] == 0x2134_c4de && t4[15] == 0x09ce_22f4;
  }

  /** The row round of double round 6 of block 4. */
  lemma B4Row6(s: seq<bv32>)
    requires IsBlock(s)
    requires s[0] == 0x42b8_4291 && s[1] == 0x5a73_a6f4 && s[2] == 0x109f_ebea && s[3] == 0xcdea_ca76 &&
      s[4] == 0xbf24_6fa8 && s[5] == 0x6def_5a31 && s[6] == 0x64aa_7110 && s[7] == 0x511b_4ef9 &&
      s[8] == 0x41f7_037e && s[9] == 0x28a4_ed05 && s[10] == 0xaf2b_7832 && s[11] == 0x2134_c4de &&
      s[12] == 0x9805_9c40 && s[13] == 0xe4c1_55b4 && s[14] == 0xc3ff_9a6e && s[15] == 0x09ce_22f4
    ensures var r := RowRound(s);
      r[0] == 0x0a6e_a483 && r[1] == 0x0bf5_257c && r[2] == 0x4a4f_f177 && r[3] == 0x6f34_a0be &&
      r[4] == 0xe89e_cca0 && r[5] == 0xde53_147a && r[6] == 0xed4e_9d86 && r[7] == 0x2af4_204f &&
      r[8] == 0x2259_cd8e && r[9] == 0x2d3c_9069 && r[10] == 0xd8f6_466b && r[11] == 0xc906_5f35 &&
      r[12] == 0x7edb_2d26 && r[13] == 0xb661_60a5 && r[14] == 0x5246_fcc9 && r[15] == 0x7c76_0055
  {
    RowRoundSteps(s);
    var t1 := QuarterRound(s, 0, 1, 2, 3);
    Quarter(s, 0, 1, 2, 3);
    assert t1[1] == 0x0bf5_257c && t1[2] == 0x4a4f_f177 && t1[3] == 0x6f34_a0be && t1[0] == 0x0a6e_a483;
    var t2 := QuarterRound(t1, 5, 6, 7, 4);
    Quarter(t1, 5, 6, 7, 4);
    assert t2[6] == 0xed4e_9d86 && t2[7] == 0x2af4_204f && t2[4] == 0xe89e_cca0 && t2[5] == 0xde53_147a;
    var t3 := QuarterRound(t2, 10, 11, 8, 9);
    Quarter(t2, 10, 11, 8, 9);
    assert t3[11] == 0xc906_5f35 && t3[8] == 0x2259_cd8e && t3[9] == 0x2d3c_9069 && t3[10] == 0xd8f6_466b;
    var t4 := QuarterRound(t3, 15, 12, 13, 14);
    Quarter(t3, 15, 12, 13, 14);
    assert t4[12] == 0x7edb_2d26 && t4[13] == 0xb661_60a5 && t4[14] == 0x5246_fcc9 && t4[15] == 0x7c76_0055;
  }

  /** The column round of double round 7 of block 4. */
  lemma B4Col7(s: seq<bv32>)
    requires IsBlock(s)
    requires s[0] == 0x0a6e_a483 && s[1] == 0x0bf5_257c && s[2] == 0x4a4f_f177 && s[3] == 0x6f34_a0be &&
      s[4] == 0xe89e_cca0 && s[5] == 0xde53_147a && s[6] == 0xed4e_9d86 && s[7] == 0x2af4_204f &&
      s[8] == 0x2259_cd8e && s[9] == 0x2d3c_9069 && s[10] == 0xd8f6_466b && s[11] == 0xc906_5f35 &&
      s[12] == 0x7edb_2d26 && s[13] == 0xb661_60a5 && s[14] == 0x5246_fcc9 && s[15] == 0x7c76_0055
    ensures var r := ColumnRound(s);
      r[0] == 0x31b0_07ac && r[1] == 0xdce5_ce4b && r[2] == 0x10da_dbe5 && r[3] == 0xd11b_659c &&
      r[4] == 0x4c76_1864 && r[5] == 0xb08b_a26a && r[6] == 0xd14f_6da4 && r[7] == 0x083f_c2d4 &&
      r[8] == 0xeb20_0323 && r[9] == 0x0920_6b1c && r[10] == 0xfed1_cec2 && r[11] == 0xac08_441e &&
      r[12] == 0xbdab_cbd4 && r[13] == 0x509e_4d6b && r[14] == 0x7037_042a && r[15] == 0x67bc_d175
  {
    ColumnRoundSteps(s);
    var t1 := QuarterRound(s, 0, 4, 8, 12);
    Quarter(s, 0, 4, 8, 12);
    assert t1[4] == 0x4c76_1864 && t1[8] == 0xeb20_0323 && t1[12] == 0xbdab_cbd4 && t1[0] == 0x31b0_07ac;
    var t2 := QuarterRound(t1, 5, 9, 13, 1);
    Quarter(t1, 5, 9, 13, 1);
    assert t2[9] == 0x0920_6b1c && t2[13] == 0x509e_4d6b && t2[1] == 0xdce5_ce4b && t2[5] == 0xb08b_a26a;
    var t3 := QuarterRound(t2, 10, 14, 2, 6);
    Quarter(t2, 10, 14, 2, 6);
    assert t3[14] == 0x7037_042a && t3[2] == 0x10da_dbe5 && t3[6] == 0xd14f_6da4 && t3[10] == 0xfed1_cec2;
    var t4 := QuarterRound(t3, 15, 3, 7, 11);
    Quarter(t3, 15, 3, 7, 11);
    assert t4[3] == 0xd11b_659c && t4[7] == 0x083f_c2d4 && t4[11] == 0xac08_441e && t4[15] == 0x67bc_d175;
  }

  /** The row round of double round 7 of block 4. */
  lemma B4Row7(s: seq<bv32>)
    requires IsBlock(s)
    requires s[0] == 0x31b0_07ac && s[1] == 0xdce5_ce4b && s[2] == 0x10da_dbe5 && s[3] == 0xd11b_659c &&
      s[4] == 0x4c76_1864 && s[5] == 0xb08b_a26a && s[6] == 0xd14f_6da4 && s[7] == 0x083f_c2d4 &&
      s[8] == 0xeb20_0323 && s[9] == 0x0920_6b1c && s[10] == 0xfed1_cec2 && s[11] == 0xac08_441e &&
      s[12] == 0xbdab_cbd4 && s[13] == 0x509e_4d6b && s[14] == 0x7037_042a && s[15] == 0x67bc_d175
    ensures var r := RowRound(s);
      r[0] == 0x7b31_6a94 && r[1] == 0xb953_6a4a && r[2] == 0x1639_3633 && r[3] == 0x4514_dc6d &&
      r[4] == 0xa6c3_48fa && r[5] == 0xffa0_cac8 && r[6] == 0x5192_0ada && r[7] == 0x3365_4ad0 &&
      r[8] == 0x27d3_bd84 && r[9] == 0x0434_4481 && r[10] == 0xf6c5_7ee2 && r[11] == 0x5514_ab1d &&
      r[12] == 0x4441_043f && r[13] == 0xab35_243c && r[14] == 0xb538_79c4 && r[15] == 0x1fbd_50c3
  {
    RowRoundSteps(s);
    var t1 := QuarterRound(s, 0, 1, 2, 3);
    Quarter(s, 0, 1, 2, 3);
    assert t1[1] == 0xb953_6a4a && t1[2] == 0x1639_3633 && t1[3] == 0x4514_dc6d && t1[0] == 0x7b31_6a94;
    var t2 := QuarterRound(t1, 5, 6, 7, 4);
    Quarter(t1, 5, 6, 7, 4);
    assert t2[6] == 0x5192_0ada && t2[7] == 0x3365_4ad0 && t2[4] == 0xa6c3_48fa && t2[5] == 0xffa0_cac8;
    var t3 := QuarterRound(t2, 10, 11, 8, 9);
    Quarter(t2, 10, 11, 8, 9);
    assert t3[11] == 0x5514_ab1d && t3[8] == 0x27d3_bd84 && t3[9] == 0x0434_4481 && t3[10] == 0xf6c5_7ee2;
    var t4 := QuarterRound(t3, 15, 12, 13, 14);
    Quarter(t3, 15, 12, 13, 14);
    assert t4[12] == 0x4441_043f && t4[13] == 0xab35_243c && t4[14] == 0xb538_79c4 && t4[15] == 0x1fbd_50c3;
  }

  /** The column round of double round 8 of block 4. */
  lemma B4Col8(s: seq<bv32>)
    requires IsBlock(s)
    requires s[0] == 0x7b31_6a94 && s[1] == 0xb953_6a4a && s[2] == 0x1639_3633 && s[3] == 0x4514_dc6d &&
      s[4] == 0xa6c3_48fa && s[5] == 0xffa0_cac8 && s[6] == 0x5192_0ada && s[7] == 0x3365_4ad0 &&
      s[8] == 0x27d3_bd84 && s[9] == 0x0434_4481 && s[10] == 0xf6c5_7ee2 && s[11] == 0x5514_ab1d &&
      s[12] == 0x4441_043f && s[13] == 0xab35_243c && s[14] == 0xb538_79c4 && s[15] == 0x1fbd_50c3
    ensures var r := ColumnRound(s);
      r[0] == 0x6a5a_7097 && r[1] == 0xdec7_fc0c && r[2] == 0x9274_b318 && r[3] == 0x2de9_2c57 &&
      r[4] == 0x1ff4_2125 && r[5] == 0x54ec_81f9 && r[6] == 0x7acd_0cf4 && r[7] == 0x7f9f_7e4b &&
      r[8] == 0x6cc4_ceb2 && r[9] == 0x7e2e_cddd && r[10] == 0xf6f5_4be5 && r[11] == 0x4040_feac &&
      r[12] == 0x59bb_f5a8 && r[13] == 0x3404_6ec7 && r[14] == 0x9efc_a7e0 && r[15] == 0xec63_af42
  {
    ColumnRoundSteps(s);
    var t1 := QuarterRound(s, 0, 4, 8, 12);
    Quarter(s, 0, 4, 8, 12);
    assert t1[4] == 0x1ff4_2125 && t1[8] == 0x6cc4_ceb2 && t1[12] == 0x59bb_f5a8 && t1[0] == 0x6a5a_7097;
    var t2 := QuarterRound(t1, 5, 9, 13, 1);
    Quarter(t1, 5, 9, 13, 1);
    assert t2[9] == 0x7e2e_cddd && t2[13] == 0x3404_6ec7 && t2[1] == 0xdec7_fc0c && t2[5] == 0x54ec_81f9;
    var t3 := QuarterRound(t2, 10, 14, 2, 6);
    Quarter(t2, 10, 14, 2, 6);
    assert t3[14] == 0x9efc_a7e0 && t3[2] == 0x9274_b318 && t3[6] == 0x7acd_0cf4 && t3[10] == 0xf6f5_4be5;
    var t4 := QuarterRound(t3, 15, 3, 7, 11);
    Quarter(t3, 15, 3, 7, 11);
    assert t4[3] == 0x2de9_2c57 && t4[7] == 0x7f9f_7e4b && t4[11] == 0x4040_feac && t4[15] == 0xec63_af42;
  }

  /** The row round of double round 8 of block 4. */
  lemma B4Row8(s: seq<bv32>)
    requires IsBlock(s)
    requires s[0] == 0x6a5a_7097 && s[1] == 0xdec7_fc0c && s[2] == 0x9274_b318 && s[3] == 0x2de9_2c57 &&
      s[4] == 0x1ff4_2125 && s[5] == 0x54ec_81f9 && s[6] == 0x7acd_0cf4 && s[7] == 0x7f9f_7e4b &&
      s[8] == 0x6cc4_ceb2 && s[9] == 0x7e2e_cddd && s[10] == 0xf6f5_4be5 && s[11] == 0x4040_feac &&
      s[12] == 0x59bb_f5a8 && s[13] == 0x3404_6ec7 && s[14] == 0x9efc_a7e0 && s[15] == 0xec63_af42
    ensures var r := RowRound(s);
      r[0] == 0x781a_49b9 && r[1] == 0xff09_8b40 && r[2] == 0x5583_1dca && r[3] == 0xb8c8_66c6 &&
      r[4] == 0x316c_6e23 && r[5] == 0x28b2_fdfc && r[6] == 0x0a9c_83ce && r[7] == 0x6d94_f0f4 &&
      r[8] == 0xee12_3920 && r[9] == 0xb538_15d6 && r[10] == 0xcd2f_c6cc && r[11] == 0xd24c_1f96 &&
      r[12] == 0xe990_64ed && r[13] == 0xdc2c_316c && r[14] == 0x0c37_9f57 && r[15] == 0xaf6c_0ecd
  {
    RowRoundSteps(s);
    var t1 := QuarterRound(s, 0, 1, 2, 3);
    Quarter(s, 0, 1, 2, 3);
    assert t1[1] == 0xff09_8b40 && t1[2] == 0x5583_1dca && t1[3] == 0xb8c8_66c6 && t1[0] == 0x781a_49b9;
    var t2 := QuarterRound(t1, 5, 6, 7, 4);
    Quarter(t1, 5, 6, 7, 4);
    assert t2[6] == 0x0a9c_83ce && t2[7] == 0x6d94_f0f4 && t2[4] == 0x316c_6e23 && t2[5] == 0x28b2_fdfc;
    var t3 := QuarterRound(t2, 10, 11, 8, 9);
    Quarter(t2, 10, 11, 8, 9);
    assert t3[11] == 0xd24c_1f96 && t3[8] == 0xee12_3920 && t3[9] == 0xb538_15d6 && t3[10] == 0xcd2f_c6cc;
    var t4 := QuarterRound(t3, 15, 12, 13, 14);
    Quarter(t3, 15, 12, 13, 14);
    assert t4[12] == 0xe990_64ed && t4[13] == 0xdc2c_316c && t4[14] == 0x0c37_9f57 && t4[15] == 0xaf6c_0ecd;
  }

  /** The column round of double round 9 of block 4. */
  lemma B4Col9(s: seq<bv32>)
    requires IsBlock(s)
    requires s[0] == 0x781a_49b9 && s[1] == 0xff09_8b40 && s[2] == 0x5583_1dca && s[3] == 0xb8c8_66c6 &&
      s[4] == 0x316c_6e23 && s[5] == 0x28b2_fdfc && s[6] == 0x0a9c_83ce && s[7] == 0x6d94_f0f4 &&
      s[8] == 0xee12_3920 && s[9] == 0xb538_15d6 && s[10] == 0xcd2f_c6cc && s[11] == 0xd24c_1f96 &&
      s[12] == 0xe990_64ed && s[13] == 0xdc2c_316c && s[14] == 0x0c37_9f57 && s[15] == 0xaf6c_0ecd
    ensures var r := ColumnRound(s);
      r[0] == 0xf561_942b && r[1] == 0x78c8_b697 && r[2] == 0xd0b1_0ca4 && r[3] == 0x64df_5706 &&
      r[4] == 0xe43b_3d13 && r[5] == 0x8bdd_0ddd && r[6] == 0x7140_9496 && r[7] == 0xfb5f_56dc &&
      r[8] == 0x451f_a198 && r[9] == 0x6b7c_8bc5 && r[10] == 0x49c6_c10a && r[11] == 0x07f0_5391 &&
      r[12] == 0xb245_01c6 && r[13] == 0x833f_b244 && r[14] == 0xea12_d23c && r[15] == 0x06d8_03f3
  {
    ColumnRoundSteps(s);
    var t1 := QuarterRound(s, 0, 4, 8, 12);
    Quarter(s, 0, 4, 8, 12);
    assert t1[4] == 0xe43b_3d13 && t1[8] == 0x451f_a198 && t1[12] == 0xb245_01c6 && t1[0] == 0xf561_942b;
    var t2 := QuarterRound(t1, 5, 9, 13, 1);
    Quarter(t1, 5, 9, 13, 1);
    assert t2[9] == 0x6b7c_8bc5 && t2[13] == 0x833f_b244 && t2[1] == 0x78c8_b697 && t2[5] == 0x8bdd_0ddd;
    var t3 := QuarterRound(t2, 10, 14, 2, 6);
    Quarter(t2, 10, 14, 2, 6);
    assert t3[14] == 0xea12_d23c && t3[2] == 0xd0b1_0ca4 && t3[6] == 0x7140_9496 && t3[10] == 0x49c6_c10a;
    var t4 := QuarterRound(t3, 15, 3, 7, 11);
    Quarter(t3, 15, 3, 7, 11);
    assert t4[3] == 0x64df_5706 && t4[7] == 0xfb5f_56dc && t4[11] == 0x07f0_5391 && t4[15] == 0x06d8_03f3;
  }

  /** The row round of double round 9 of block 4. */
  lemma B4Row9(s: seq<bv32>)
    requires IsBlock(s)
    requires s[0] == 0xf561_942b && s[1] == 0x78c8_b697 && s[2] == 0xd0b1_0ca4 && s[3] == 0x64df_5706 &&
      s[4] == 0xe43b_3d13 && s[5] == 0x8bdd_0ddd && s[6] == 0x7140_9496 && s[7] == 0xfb5f_56dc &&
      s[8] == 0x451f_a198 && s[9] == 0x6b7c_8bc5 && s[10] == 0x49c6_c10a && s[11] == 0x07f0_5391 &&
      s[12] == 0xb245_01c6 && s[13] == 0x833f_b244 && s[14] == 0xea12_d23c && s[15] == 0x06d8_03f3
    ensures var r := RowRound(s);
      r[0] == 0x62a1_0a30 && r[1] == 0x58bd_2e3a && r[2] == 0xed35_c638 && r[3] == 0x3a51_1fb8 &&
      r[4] == 0xe194_a291 && r[5] == 0x06a0_8d26 && r[6] == 0x7d65_ecae && r[7] == 0x7eaa_40ce &&
      r[8] == 0x7cf5_0a78 && r[9] == 0x0ca4_efac && r[10] == 0xa154_e76d && r[11] == 0xa656_344b &&
      r[12] == 0xc72e_163e && r[13] == 0x8f0b_d1d8 && r[14] == 0xd710_18fb && r[15] == 0xad95_9b9c
  {
    RowRoundSteps(s);
    var t1 := QuarterRound(s, 0, 1, 2, 3);
    Quarter(s, 0, 1, 2, 3);
    assert t1[1] == 0x58bd_2e3a && t1[2] == 0xed35_c638 && t1[3] == 0x3a51_1fb8 && t1[0] == 0x62a1_0a30;
    var t2 := QuarterRound(t1, 5, 6, 7, 4);
    Quarter(t1, 5, 6, 7, 4);
    assert t2[6] == 0x7d65_ecae && t2[7] == 0x7eaa_40ce && t2[4] == 0xe194_a291 && t2[5] == 0x06a0_8d26;
    var t3 := QuarterRound(t2, 10, 11, 8, 9);
    Quarter(t2, 10, 11, 8, 9);
    assert t3[11] == 0xa656_344b && t3[8] == 0x7cf5_0a78 && t3[9] == 0x0ca4_efac && t3[10] == 0xa154_e76d;
    var t4 := QuarterRound(t3, 15, 12, 13, 14);
    Quarter(t3, 15, 12, 13, 14);
    assert t4[12] == 0xc72e_163e && t4[13] == 0x8f0b_d1d8 && t4[14] == 0xd710_18fb && t4[15] == 0xad95_9b9c;
  }

  /** The initial block of block number 4. */
  lemma B4Init()
    ensures var s := InitBlock(TestKey, 0, 4);
      s[0] == 0x6170_7865 && s[1] == 0x0000_0080 && s[2] == 0x0000_0000 && s[3] == 0x0000_0000 &&
      s[4] == 0x0000_0000 && s[5] == 0x3320_646e && s[6] == 0x0000_0000 && s[7] == 0x0000_0000 &&
      s[8] == 0x0000_0004 && s[9] == 0x0000_0000 && s[10] == 0x7962_2d32 && s[11] == 0x0000_0000 &&
      s[12] == 0x0000_0000 && s[13] == 0x0000_0000 && s[14] == 0x0000_0000 && s[15] == 0x6b20_6574
  {
  }

  /** Block 4 after 0 double rounds. */
  lemma B4After0()
    ensures var s := DoubleRounds(InitBlock(TestKey, 0, 4), 0);
      IsBlock(s) &&
      s[0] == 0x6170_7865 && s[1] == 0x0000_0080 && s[2] == 0x0000_0000 && s[3] == 0x0000_0000 &&
      s[4] == 0x0000_0000 && s[5] == 0x3320_646e && s[6] == 0x0000_0000 && s[7] == 0x0000_0000 &&
      s[8] == 0x0000_0004 && s[9] == 0x0000_0000 && s[10] == 0x7962_2d32 && s[11] == 0x0000_0000 &&
      s[12] == 0x0000_0000 && s[13] == 0x0000_0000 && s[14] == 0x0000_0000 && s[15] == 0x6b20_6574
  {
    B4Init();
  }

  /** Block 4 after 1 double rounds. */
  lemma B4After1()
    ensures var s := DoubleRounds(InitBlock(TestKey, 0, 4), 1);
      IsBlock(s) &&
      s[0] == 0xf38c_3e1d && s[1] == 0xb401_094d && s[2] == 0x5e65_305d && s[3] == 0x5707_f879 &&
      s[4] == 0x93b8_74be && s[5] == 0x6d36_9a38 && s[6] == 0x5b0a_6e9a && s[7] == 0xd566_ed88 &&
      s[8] == 0x6cdd_42da && s[9] == 0x1b6a_d3ef && s[10] == 0xe0e5_8ce9 && s[11] == 0xbad7_17eb &&
      s[12] == 0xeeb3_b32a && s[13] == 0x6b46_2f5b && s[14] == 0x8d46_3203 && s[15] == 0x0548_2757
  {
    B4After0();
    DoubleRoundsNext(InitBlock(TestKey, 0, 4), 0);
    B4Col0(DoubleRounds(InitBlock(TestKey, 0, 4), 0));
    B4Row0(ColumnRound(DoubleRounds(InitBlock(TestKey, 0, 4), 0)));
  }

  /** Block 4 after 2 double rounds. */
  lemma B4After2()
    ensures var s := DoubleRounds(InitBlock(TestKey, 0, 4), 2);
      IsBlock(s) &&
      s[0] == 0x5b89_f9cd && s[1] == 0x51e2_5c7b && s[2] == 0x4e1d_aa5a && s[3] == 0x5842_ed19 &&
      s[4] == 0xe357_617c && s[5] == 0x3e7f_9a8a && s[6] == 0x0e76_1e33 && s[7] == 0xa325_5a8a &&
      s[8] == 0x2599_339d && s[9] == 0x5020_4c98 && s[10] == 0x1211_b0f1 && s[11] == 0xc9a5_513d &&
      s[12] == 0xa99d_52c6 && s[13] == 0x6ed1_560a && s[14] == 0xafa1_f093 && s[15] == 0x81a2_7488
  {
    B4After1();
    DoubleRoundsNext(InitBlock(TestKey, 0, 4), 1);
    B4Col1(DoubleRounds(InitBlock(TestKey, 0, 4), 1));
    B4Row1(ColumnRound(DoubleRounds(InitBlock(TestKey, 0, 4), 1)));
  }

  /** Block 4 after 3 double rounds. */
  lemma B4After3()
    ensures var s := DoubleRounds(InitBlock(TestKey, 0, 4), 3);
      IsBlock(s) &&
      s[0] == 0x293e_d689 && s[1] == 0x1aee_686e && s[2] == 0xef9f_73dc && s[3] == 0x4029_4eed &&
      s[4] == 0x4dae_5a08 && s[5] == 0xce05_2574 && s[6] == 0xb534_4279 && s[7] == 0xe27d_a882 &&
      s[8] == 0x9905_d312 && s[9] == 0xdd4b_7c9e && s[10] == 0xb0f4_8a0d && s[11] == 0xfd70_1973 &&
      s[12] == 0x4b0e_a0db && s[13] == 0x254b_f9fa && s[14] == 0xbf1c_cc88 && s[15] == 0x067b_9511
  {
    B4After2();
    DoubleRoundsNext(InitBlock(TestKey, 0, 4), 2);
    B4Col2(DoubleRounds(InitBlock(TestKey, 0, 4), 2));
    B4Row2(ColumnRound(DoubleRounds(InitBlock(TestKey, 0, 4), 2)));
  }

  /** Block 4 after 4 double rounds. */
  lemma B4After4()
    ensures var s := DoubleRounds(InitBlock(TestKey, 0, 4), 4);
      IsBlock(s) &&
      s[0] == 0xccfc_7091 && s[1] == 0x168a_75ef && s[2] == 0x414a_487e && s[3] == 0x2233_a616 &&
      s[4] == 0xfe70_e3fc && s[5] == 0xe019_fdd2 && s[6] == 0xe650_6585 && s[7] == 0x7824_45a3 &&
      s[8] == 0x4b7e_25d4 && s[9] == 0xb9d3_2273 && s[10] == 0xe4ee_ab5a && s[11] == 0x314a_c521 &&
      s[12] == 0x4494_8fd7 && s[13] == 0xac72_6c36 && s[14] == 0x74fb_319b && s[15] == 0x2705_1a0b
  {
    B4After3();
    DoubleRoundsNext(InitBlock(TestKey, 0, 4), 3);
    B4Col3(DoubleRounds(InitBlock(TestKey, 0, 4), 3));
    B4Row3(ColumnRound(DoubleRounds(InitBlock(TestKey, 0, 4), 3)));
  }

  /** Block 4 after 5 double rounds. */
  lemma B4After5()
    ensures var s := DoubleRounds(InitBlock(TestKey, 0, 4), 5);
      IsBlock(s) &&
      s[0] == 0x4a16_ee01 && s[1] == 0x94a1_bb7a && s[2] == 0xd493_0a08 && s[3] == 0x9d6c_7d1c &&
      s[4] == 0x2335_3e20 && s[5] == 0x24e6_470f && s[6] == 0xcd8c_fb92 && s[7] == 0x8113_b29d &&
      s[8] == 0xd99d_7967 && s[9] == 0x91ca_7adf && s[10] == 0xa01c_4c12 && s[11] == 0xe91e_579e &&
      s[12] == 0xcba6_4874 && s[13] == 0x010e_3f10 && s[14] == 0x7b83_c7e8 && s[15] == 0x884d_c7b7
  {
    B4After4();
    DoubleRoundsNext(InitBlock(TestKey, 0, 4), 4);
    B4Col4(DoubleRounds(InitBlock(TestKey, 0, 4), 4));
    B4Row4(ColumnRound(DoubleRounds(InitBlock(TestKey, 0, 4), 4)));
  }

  /** Block 4 after 6 double rounds. */
  lemma B4After6()
    ensures var s := DoubleRounds(InitBlock(TestKey, 0, 4), 6);
      IsBlock(s) &&
      s[0] == 0x3c43_2563 && s[1] == 0x9224_8758 && s[2] == 0x9410_f8ab && s[3] == 0x9b63_b362 &&
      s[4] == 0xed64_8cb1 && s[5] == 0x9f4f_a6e2 && s[6] == 0x9461_6b83 && s[7] == 0xac77_1ad1 &&
      s[8] == 0x8edd_1488 && s[9] == 0x92b3_f01d && s[10] == 0xdcc2_ad1b && s[11] == 0xe219_273e &&
      s[12] == 0xf661_5c63 && s[13] == 0x0de6_9a3b && s[14] == 0x51f3_d556 && s[15] == 0x4693_ebb4
  {
    B4After5();
    DoubleRoundsNext(InitBlock(TestKey, 0, 4), 5);
    B4Col5(DoubleRounds(InitBlock(TestKey, 0, 4), 5));
    B4Row5(ColumnRound(DoubleRounds(InitBlock(TestKey, 0, 4), 5)));
  }

  /** Block 4 after 7 double rounds. */
  lemma B4After7()
    ensures var s := DoubleRounds(InitBlock(TestKey, 0, 4), 7);
      IsBlock(s) &&
      s[0] == 0x0a6e_a483 && s[1] == 0x0bf5_257c && s[2] == 0x4a4f_f177 && s[3] == 0x6f34_a0be &&
      s[4] == 0xe89e_cca0 && s[5] == 0xde53_147a && s[6] == 0xed4e_9d86 && s[7] == 0x2af4_204f &&
      s[8] == 0x2259_cd8e && s[9] == 0x2d3c_9069 && s[10] == 0xd8f6_466b && s[11] == 0xc906_5f35 &&
      s[12] == 0x7edb_2d26 && s[13] == 0xb661_60a5 && s[14] == 0x5246_fcc9 && s[15] == 0x7c76_0055
  {
    B4After6();
    DoubleRoundsNext(InitBlock(TestKey, 0, 4), 6);
    B4Col6(DoubleRounds(InitBlock(TestKey, 0, 4), 6));
    B4Row6(ColumnRound(DoubleRounds(InitBlock(TestKey, 0, 4), 6)));
  }

  /** Block 4 after 8 double rounds. */
  lemma B4After8()
    ensures var s := DoubleRounds(InitBlock(TestKey, 0, 4), 8);
      IsBlock(s) &&
      s[0] == 0x7b31_6a94 && s[1] == 0xb953_6a4a && s[2] == 0x1639_3633 && s[3] == 0x4514_dc6d &&
      s[4] == 0xa6c3_48fa && s[5] == 0xffa0_cac8 && s[6] == 0x5192_0ada && s[7] == 0x3365_4ad0 &&
      s[8] == 0x27d3_bd84 && s[9] == 0x0434_4481 && s[10] == 0xf6c5_7ee2 && s[11] == 0x5514_ab1d &&
      s[12] == 0x4441_043f && s[13] == 0xab35_243c && s[14] == 0xb538_79c4 && s[15] == 0x1fbd_50c3
  {
    B4After7();
    DoubleRoundsNext(InitBlock(TestKey, 0, 4), 7);
    B4Col7(DoubleRounds(InitBlock(TestKey, 0, 4), 7));
    B4Row7(ColumnRound(DoubleRounds(InitBlock(TestKey, 0, 4), 7)));
  }

  /** Block 4 after 9 double rounds. */
  lemma B4After9()
    ensures var s := DoubleRounds(InitBlock(TestKey, 0, 4), 9);
      IsBlock(s) &&
      s[0] == 0x781a_49b9 && s[1] == 0xff09_8b40 && s[2] == 0x5583_1dca && s[3] == 0xb8c8_66c6 &&
      s[4] == 0x316c_6e23 && s[5] == 0x28b2_fdfc && s[6] == 0x0a9c_83ce && s[7] == 0x6d94_f0f4 &&
      s[8] == 0xee12_3920 && s[9] == 0xb538_15d6 && s[10] == 0xcd2f_c6cc && s[11] == 0xd24c_1f96 &&
      s[12] == 0xe990_64ed && s[13] == 0xdc2c_316c && s[14] == 0x0c37_9f57 && s[15] == 0xaf6c_0ecd
  {
    B4After8();
    DoubleRoundsNext(InitBlock(TestKey, 0, 4), 8);
    B4Col8(DoubleRounds(InitBlock(TestKey, 0, 4), 8));
    B4Row8(ColumnRound(DoubleRounds(InitBlock(TestKey, 0, 4), 8)));
  }

  /** Block 4 after 10 double rounds. */
  lemma B4After10()
    ensures var s := DoubleRounds(InitBlock(TestKey, 0, 4), 10);
      IsBlock(s) &&
      s[0] == 0x62a1_0a30 && s[1] == 0x58bd_2e3a && s[2] == 0xed35_c638 && s[3] == 0x3a51_1fb8 &&
      s[4] == 0xe194_a291 && s[5] == 0x06a0_8d26 && s[6] == 0x7d65_ecae && s[7] == 0x7eaa_40ce &&
      s[8] == 0x7cf5_0a78 && s[9] == 0x0ca4_efac && s[10] == 0xa154_e76d && s[11] == 0xa656_344b &&
      s[12] == 0xc72e_163e && s[13] == 0x8f0b_d1d8 && s[14] == 0xd710_18fb && s[15] == 0xad95_9b9c
  {
    B4After9();
    DoubleRoundsNext(InitBlock(TestKey, 0, 4), 9);
    B4Col9(DoubleRounds(InitBlock(TestKey, 0, 4), 9));
    B4Row9(ColumnRound(DoubleRounds(InitBlock(TestKey, 0, 4), 9)));
  }

  /** Keystream block 4 of the stub program, word by word. */
  lemma KeystreamBlock4()
    ensures var k := Keystream(TestKey, 0, 4);
      k[0] == 0xc411_8295 && k[1] == 0x58bd_2eba && k[2] == 0xed35_c638 && k[3] == 0x3a51_1fb8 &&
      k[4] == 0xe194_a291 && k[5] == 0x39c0_f194 && k[6] == 0x7d65_ecae && k[7] == 0x7eaa_40ce &&
      k[8] == 0x7cf5_0a7c && k[9] == 0x0ca4_efac && k[10] == 0x1ab7_149f && k[11] == 0xa656_344b &&
      k[12] == 0xc72e_163e && k[13] == 0x8f0b_d1d8 && k[14] == 0xd710_18fb && k[15] == 0x18b6_0110
  {
    B4Init();
    B4After10();
  }

  /** The byte swap of the sixteen keystream words of block 4. */
  lemma B4Swapped()
    ensures LittleEndian(0xc411_8295) == 0x9582_11c4 && LittleEndian(0x58bd_2eba) == 0xba2e_bd58 &&
      LittleEndian(0xed35_c638) == 0x38c6_35ed && LittleEndian(0x3a51_1fb8) == 0xb81f_513a &&
      LittleEndian(0xe194_a291) == 0x91a2_94e1 && LittleEndian(0x39c0_f194) == 0x94f1_c039 &&
      LittleEndian(0x7d65_ecae) == 0xaeec_657d && LittleEndian(0x7eaa_40ce) == 0xce40_aa7e &&
      LittleEndian(0x7cf5_0a7c) == 0x7c0a_f57c && LittleEndian(0x0ca4_efac) == 0xacef_a40c &&
      LittleEndian(0x1ab7_149f) == 0x9f14_b71a && LittleEndian(0xa656_344b) == 0x4b34_56a6 &&
      LittleEndian(0xc72e_163e) == 0x3e16_2ec7 && LittleEndian(0x8f0b_d1d8) == 0xd8d1_0b8f &&
      LittleEndian(0xd710_18fb) == 0xfb18_10d7 && LittleEndian(0x18b6_0110) == 0x1001_b618
  {
  }

  /** The printed words of block 4: the lines 958211c4ba2ebd5838c635edb81f513a, 91a294e194f1c039aeec657dce40aa7e, 7c0af57cacefa40c9f14b71a4b3456a6, 3e162ec7d8d10b8ffb1810d71001b618. */
  lemma PrintedBlock4()
    ensures var k := Keystream(TestKey, 0, 4);
      LittleEndian(k[0]) == 0x9582_11c4 && LittleEndian(k[1]) == 0xba2e_bd58 && LittleEndian(k[2]) == 0x38c6_35ed && LittleEndian(k[3]) == 0xb81f_513a &&
      LittleEndian(k[4]) == 0x91a2_94e1 && LittleEndian(k[5]) == 0x94f1_c039 && LittleEndian(k[6]) == 0xaeec_657d && LittleEndian(k[7]) == 0xce40_aa7e &&
      LittleEndian(k[8]) == 0x7c0a_f57c && LittleEndian(k[9]) == 0xacef_a40c && LittleEndian(k[10]) == 0x9f14_b71a && LittleEndian(k[11]) == 0x4b34_56a6 &&
      LittleEndian(k[12]) == 0x3e16_2ec7 && LittleEndian(k[13]) == 0xd8d1_0b8f && LittleEndian(k[14]) == 0xfb18_10d7 && LittleEndian(k[15]) == 0x1001_b618
  {
    KeystreamBlock4();
    B4Swapped();
  }

  /** The column round of double round 0 of block 7. */
  lemma B7Col0(s: seq<bv32>)
    requires IsBlock(s)
    requires s[0] == 0x6170_7865 && s[1] == 0x0000_0080 && s[2] == 0x0000_0000 && s[3] == 0x0000_0000 &&
      s[4] == 0x0000_0000 && s[5] == 0x3320_646e && s[6] == 0x0000_0000 && s[7] == 0x0000_0000 &&
      s[8] == 0x0000_0007 && s[9] == 0x0000_0000 && s[10] == 0x7962_2d32 && s[11] == 0x0000_0000 &&
      s[12] == 0x0000_0000 && s[13] == 0x0000_0000 && s[14] == 0x0000_0000 && s[15] == 0x6b20_6574
    ensures var r := ColumnRound(s);
      r[0] == 0xd0ea_ebaf && r[1] == 0x30d3_e63d && r[2] == 0xf18c_dc54 && r[3] == 0x9032_ba35 &&
      r[4] == 0xb83c_32b0 && r[5] == 0xe42f_3e45 && r[6] == 0x6eb2_1454 && r[7] == 0xa63f_53f6 &&
      r[8] == 0x5956_2a34 && r[9] == 0x9032_7719 && r[10] == 0xbbc3_adc9 && r[11] == 0x41c5_66ce &&
      r[12] == 0x4b9c_8232 && r[13] == 0xa5b7_0f86 && r[14] == 0xb116_993c && r[15] == 0x8033_c566
  {
    ColumnRoundSteps(s);
    var t1 := QuarterRound(s, 0, 4, 8, 12);
    Quarter(s, 0, 4, 8, 12);
    assert t1[4] == 0xb83c_32b0 && t1[8] == 0x5956_2a34 && t1[12] == 0x4b9c_8232 && t1[0] == 0xd0ea_ebaf;
    var t2 := QuarterRound(t1, 5, 9, 13, 1);
    Quarter(t1, 5, 9, 13, 1);
    assert t2[9] == 0x9032_7719 && t2[13] == 0xa5b7_0f86 && t2[1] == 0x30d3_e63d && t2[5] == 0xe42f_3e45;
    var t3 := QuarterRound(t2, 10, 14, 2, 6);
    Quarter(t2, 10, 14, 2, 6);
    assert t3[14] == 0xb116_993c && t3[2] == 0xf18c_dc54 && t3[6] == 0x6eb2_1454 && t3[10] == 0xbbc3_adc9;
    var t4 := QuarterRound(t3, 15, 3, 7, 11);
    Quarter(t3, 15, 3, 7, 11);
    assert t4[3] == 0x9032_ba35 && t4[7] == 0xa63f_53f6 && t4[11] == 0x41c5_66ce && t4[15] == 0x8033_c566;
  }

  /** The row round of double round 0 of block 7. */
  lemma B7Row0(s: seq<bv32>)
    requires IsBlock(s)
    requires s[0] == 0xd0ea_ebaf && s[1] == 0x30d3_e63d && s[2] == 0xf18c_dc54 && s[3] == 0x9032_ba35 &&
      s[4] == 0xb83c_32b0 && s[5] == 0xe42f_3e45 && s[6] == 0x6eb2_1454 && s[7] == 0xa63f_53f6 &&
      s[8] == 0x5956_2a34 && s[9] == 0x9032_7719 && s[10] == 0xbbc3_adc9 && s[11] == 0x41c5_66ce &&
      s[12] == 0x4b9c_8232 && s[13] == 0xa5b7_0f86 && s[14] == 0xb116_993c && s[15] == 0x8033_c566
    ensures var r := RowRound(s);
      r[0] == 0xe0fa_5d9f && r[1] == 0xbe01_140d && r[2] == 0x2673_a549 && r[3] == 0x0718_66bb &&
      r[4] == 0x93b8_74be && r[5] == 0x6d36_9a38 && r[6] == 0x5b0a_6e9a && r[7] == 0xd566_ed88 &&
      r[8] == 0x6cdd_42d9 && r[9] == 0x1b6a_f3ef && r[10] == 0x60e1_8ce9 && r[11] == 0xbad7_17eb &&
      r[12] == 0xeeb3_d32a && r[13] == 0x6a86_2f5b && r[14] == 0xf146_321b && r[15] == 0x05ea_aa57
  {
    RowRoundSteps(s);
    var t1 := QuarterRound(s, 0, 1, 2, 3);
    Quarter(s, 0, 1, 2, 3);
    assert t1[1] == 0xbe01_140d && t1[2] == 0x2673_a549 && t1[3] == 0x0718_66bb && t1[0] == 0xe0fa_5d9f;
    var t2 := QuarterRound(t1, 5, 6, 7, 4);
    Quarter(t1, 5, 6, 7, 4);
    assert t2[6] == 0x5b0a_6e9a && t2[7] == 0xd566_ed88 && t2[4] == 0x93b8_74be && t2[5] == 0x6d36_9a38;
    var t3 := QuarterRound(t2, 10, 11, 8, 9);
    Quarter(t2, 10, 11, 8, 9);
    assert t3[11] == 0xbad7_17eb && t3[8] == 0x6cdd_42d9 && t3[9] == 0x1b6a_f3ef && t3[10] == 0x60e1_8ce9;
    var t4 := QuarterRound(t3, 15, 12, 13, 14);
    Quarter(t3, 15, 12, 13, 14);
    assert t4[12] == 0xeeb3_d32a && t4[13] == 0x6a86_2f5b && t4[14] == 0xf146_321b && t4[15] == 0x05ea_aa57;
  }

  /** The column round of double round 1 of block 7. */
  lemma B7Col1(s: seq<bv32>)
    requires IsBlock(s)
    requires s[0] == 0xe0fa_5d9f && s[1] == 0xbe01_140d && s[2] == 0x2673_a549 && s[3] == 0x0718_66bb &&
      s[4] == 0x93b8_74be && s[5] == 0x6d36_9a38 && s[6] == 0x5b0a_6e9a && s[7] == 0xd566_ed88 &&
      s[8] == 0x6cdd_42d9 && s[9] == 0x1b6a_f3ef && s[10] == 0x60e1_8ce9 && s[11] == 0xbad7_17eb &&
      s[12] == 0xeeb3_d32a && s[13] == 0x6a86_2f5b && s[14] == 0xf146_321b && s[15] == 0x05ea_aa57
    ensures var r := ColumnRound(s);
      r[0] == 0xadb8_664a && r[1] == 0x5d7e_546c && r[2] == 0x1d72_fb82 && r[3] == 0x67f9_47db &&
      r[4] == 0x44a0_1059 && r[5] == 0x1685_e506 && r[6] == 0x86e3_6adf && r[7] == 0x1282_8953 &&
      r[8] == 0x5806_b292 && r[9] == 0x80bd_d17a && r[10] == 0xf967_1db0 && r[11] == 0xc0f2_d8a4 &&
      r[12] == 0x36ee_a0be && r[13] == 0x8251_4a80 && r[14] == 0x04bb_f3c6 && r[15] == 0x8235_e782
  {
    ColumnRoundSteps(s);
    var t1 := QuarterRound(s, 0, 4, 8, 12);
    Quarter(s, 0, 4, 8, 12);
    assert t1[4] == 0x44a0_1059 && t1[8] == 0x5806_b292 && t1[12] == 0x36ee_a0be && t1[0] == 0xadb8_664a;
    var t2 := QuarterRound(t1, 5, 9, 13, 1);
    Quarter(t1, 5, 9, 13, 1);
    assert t2[9] == 0x80bd_d17a && t2[13] == 0x8251_4a80 && t2[1] == 0x5d7e_546c && t2[5] == 0x1685_e506;
    var t3 := QuarterRound(t2, 10, 14, 2, 6);
    Quarter(t2, 10, 14, 2, 6);
    assert t3[14] == 0x04bb_f3c6 && t3[2] == 0x1d72_fb82 && t3[6] == 0x86e3_6adf && t3[10] == 0xf967_1db0;
    var t4 := QuarterRound(t3, 15, 3, 7, 11);
    Quarter(t3, 15, 3, 7, 11);
    assert t4[3] == 0x67f9_47db && t4[7] == 0x1282_8953 && t4[11] == 0xc0f2_d8a4 && t4[15] == 0x8235_e782;
  }

  /** The row round of double round 1 of block 7. */
  lemma B7Row1(s: seq<bv32>)
    requires IsBlock(s)
    requires s[0] == 0xadb8_664a && s[1] == 0x5d7e_546c && s[2] == 0x1d72_fb82 && s[3] == 0x67f9_47db &&
      s[4] == 0x44a0_1059 && s[5] == 0x1685_e506 && s[6] == 0x86e3_6adf && s[7] == 0x1282_8953 &&
      s[8] == 0x5806_b292 && s[9] == 0x80bd_d17a && s[10] == 0xf967_1db0 && s[11] == 0xc0f2_d8a4 &&
      s[12] == 0x36ee_a0be && s[13] == 0x8251_4a80 && s[14] == 0x04bb_f3c6 && s[15] == 0x8235_e782
    ensures var r := RowRound(s);
      r[0] == 0x33ac_8168 && r[1] == 0x85a9_46e6 && r[2] == 0xde28_9be4 && r[3] == 0x5ba0_0ba1 &&
      r[4] == 0x436f_1867 && r[5] == 0x5330_2010 && r[6] == 0x1419_c572 && r[7] == 0x2dd6_7906 &&
      r[8] == 0x80d0_2105 && r[9] == 0x2d6e_1b10 && r[10] == 0x0931_a548 && r[11] == 0xd285_4d99 &&
      r[12] == 0x4e03_04fd && r[13] == 0xf389_b520 && r[14] == 0x93f8_5bf7 && r[15] == 0xc66b_f98a
  {
    RowRoundSteps(s);
    var t1 := QuarterRound(s, 0, 1, 2, 3);
    Quarter(s, 0, 1, 2, 3);
    assert t1[1] == 0x85a9_46e6 && t1[2] == 0xde28_9be4 && t1[3] == 0x5ba0_0ba1 && t1[0] == 0x33ac_8168;
    var t2 := QuarterRound(t1, 5, 6, 7, 4);
    Quarter(t1, 5, 6, 7, 4);
    assert t2[6] == 0x1419_c572 && t2[7] == 0x2dd6_7906 && t2[4] == 0x436f_1867 && t2[5] == 0x5330_2010;
    var t3 := QuarterRound(t2, 10, 11, 8, 9);
    Quarter(t2, 10, 11, 8, 9);
    assert t3[11] == 0xd285_4d99 && t3[8] == 0x80d0_2105 && t3[9] == 0x2d6e_1b10 && t3[10] == 0x0931_a548;
    var t4 := QuarterRound(t3, 15, 12, 13, 14);
    Quarter(t3, 15, 12, 13, 14);
    assert t4[12] == 0x4e03_04fd && t4[13] == 0xf389_b520 && t4[14] == 0x93f8_5bf7 && t4[15] == 0xc66b_f98a;
  }

  /** The column round of double round 2 of block 7. */
  lemma B7Col2(s: seq<bv32>)
    requires IsBlock(s)
    requires s[0] == 0x33ac_8168 && s[1] == 0x85a9_46e6 && s[2] == 0xde28_9be4 && s[3] == 0x5ba0_0ba1 &&
      s[4] == 0x436f_1867 && s[5] == 0x5330_2010 && s[6] == 0x1419_c572 && s[7] == 0x2dd6_7906 &&
      s[8] == 0x80d0_2105 && s[9] == 0x2d6e_1b10 && s[10] == 0x0931_a548 && s[11] == 0xd285_4d99 &&
      s[12] == 0x4e03_04fd && s[13] == 0xf389_b520 && s[14] == 0x93f8_5bf7 && s[15] == 0xc66b_f98a
    ensures var r := ColumnRound(s);
      r[0] == 0x58ef_53db && r[1] == 0x4439_83aa && r[2] == 0x2370_199a && r[3] == 0x2303_9a6d &&
      r[4] == 0x94ac_2aa7 && r[5] == 0xede0_9318 && r[6] == 0xb00b_ae45 && r[7] == 0xf2f1_96d4 &&
      r[8] == 0x3188_3e95 && r[9] == 0x41dd_607c && r[10] == 0x164e_e8a7 && r[11] == 0x74ad_6f27 &&
      r[12] == 0xc324_9c3b && r[13] == 0xe888_ac0a && r[14] == 0x364d_06f9 && r[15] == 0xd186_67f6
  {
    ColumnRoundSteps(s);
    var t1 := QuarterRound(s, 0, 4, 8, 12);
    Quarter(s, 0, 4, 8, 12);
    assert t1[4] == 0x94ac_2aa7 && t1[8] == 0x3188_3e95 && t1[12] == 0xc324_9c3b && t1[0] == 0x58ef_53db;
    var t2 := QuarterRound(t1, 5, 9, 13, 1);
    Quarter(t1, 5, 9, 13, 1);
    assert t2[9] == 0x41dd_607c && t2[13] == 0xe888_ac0a && t2[1] == 0x4439_83aa && t2[5] == 0xede0_9318;
    var t3 := QuarterRound(t2, 10, 14, 2, 6);
    Quarter(t2, 10, 14, 2, 6);
    assert t3[14] == 0x364d_06f9 && t3[2] == 0x2370_199a && t3[6] == 0xb00b_ae45 && t3[10] == 0x164e_e8a7;
    var t4 := QuarterRound(t3, 15, 3, 7, 11);
    Quarter(t3, 15, 3, 7, 11);
    assert t4[3] == 0x2303_9a6d && t4[7] == 0xf2f1_96d4 && t4[11] == 0x74ad_6f27 && t4[15] == 0xd186_67f6;
  }

  /** The row round of double round 2 of block 7. */
  lemma B7Row2(s: seq<bv32>)
    requires IsBlock(s)
    requires s[0] == 0x58ef_53db && s[1] == 0x4439_83aa && s[2] == 0x2370_199a && s[3] == 0x2303_9a6d &&
      s[4] == 0x94ac_2aa7 && s[5] == 0xede0_9318 && s[6] == 0xb00b_ae45 && s[7] == 0xf2f1_96d4 &&
      s[8] == 0x3188_3e95 && s[9] == 0x41dd_607c && s[10] == 0x164e_e8a7 && s[11] == 0x74ad_6f27 &&
      s[12] == 0xc324_9c3b && s[13] == 0xe888_ac0a && s[14] == 0x364d_06f9 && s[15] == 0xd186_67f6
    ensures var r := RowRound(s);
      r[0] == 0x82d8_931f && r[1] == 0xbd4e_a797 && r[2] == 0x5886_fdb6 && r[3] == 0x97aa_38d7 &&
      r[4] == 0x50b8_380e && r[5] == 0x714b_2ddb && r[6] == 0xf655_7184 && r[7] == 0x9ef8_af1c &&
      r[8] == 0x8046_5a64 && r[9] == 0x4ac0_9c26 && r[10] == 0xcc65_c4bc && r[11] == 0x6289_fe8b &&
      r[12] == 0x2a93_ebb8 && r[13] == 0xdc2f_f1f2 && r[14] == 0x4df8_4621 && r[15] == 0x31ca_cf56
  {
    RowRoundSteps(s);
    var t1 := QuarterRound(s, 0, 1, 2, 3);
    Quarter(s, 0, 1, 2, 3);
    assert t1[1] == 0xbd4e_a797 && t1[2] == 0x5886_fdb6 && t1[3] == 0x97aa_38d7 && t1[0] == 0x82d8_931f;
    var t2 := QuarterRound(t1, 5, 6, 7, 4);
    Quarter(t1, 5, 6, 7, 4);
    assert t2[6] == 0xf655_7184 && t2[7] == 0x9ef8_af1c && t2[4] == 0x50b8_380e && t2[5] == 0x714b_2ddb;
    var t3 := QuarterRound(t2, 10, 11, 8, 9);
    Quarter(t2, 10, 11, 8, 9);
    assert t3[11] == 0x6289_fe8b && t3[8] == 0x8046_5a64 && t3[9] == 0x4ac0_9c26 && t3[10] == 0xcc65_c4bc;
    var t4 := QuarterRound(t3, 15, 12, 13, 14);
    Quarter(t3, 15, 12, 13, 14);
    assert t4[12] == 0x2a93_ebb8 && t4[13] == 0xdc2f_f1f2 && t4[14] == 0x4df8_4621 && t4[15] == 0x31ca_cf56;
  }

  /** The column round of double round 3 of block 7. */
  lemma B7Col3(s: seq<bv32>)
    requires IsBlock(s)
    requires s[0] == 0x82d8_931f && s[1] == 0xbd4e_a797 && s[2] == 0x5886_fdb6 && s[3] == 0x97aa_38d7 &&
      s[4] == 0x50b8_380e && s[5] == 0x714b_2ddb && s[6] == 0xf655_7184 && s[7] == 0x9ef8_af1c &&
      s[8] == 0x8046_5a64 && s[9] == 0x4ac0_9c26 && s[10] == 0xcc65_c4bc && s[11] == 0x6289_fe8b &&
      s[12] == 0x2a93_ebb8 && s[13] == 0xdc2f_f1f2 && s[14] == 0x4df8_4621 && s[15] == 0x31ca_cf56
    ensures var r := ColumnRound(s);
      r[0] == 0x121a_bf28 && r[1] == 0x3c87_0001 && r[2] == 0xcad3_040f && r[3] == 0xbdcc_c81d &&
      r[4] == 0xe687_53d8 && r[5] == 0xd53e_e198 && r[6] == 0x3b1c_8ae2 && r[7] == 0xb1d6_48c3 &&
      r[8] == 0x3f8b_b4b6 && r[9] == 0x062a_2531 && r[10] == 0xf7a1_d302 && r[11] == 0x0095_f37f &&
      r[12] == 0x4b82_2f7a && r[13] == 0x3689_e91c && r[14] == 0x1063_6640 && r[15] == 0xc0c0_06e6
  {
    ColumnRoundSteps(s);
    var t1 := QuarterRound(s, 0, 4, 8, 12);
    Quarter(s, 0, 4, 8, 12);
    assert t1[4] == 0xe687_53d8 && t1[8] == 0x3f8b_b4b6 && t1[12] == 0x4b82_2f7a && t1[0] == 0x121a_bf28;
    var t2 := QuarterRound(t1, 5, 9, 13, 1);
    Quarter(t1, 5, 9, 13, 1);
    assert t2[9] == 0x062a_2531 && t2[13] == 0x3689_e91c && t2[1] == 0x3c87_0001 && t2[5] == 0xd53e_e198;
    var t3 := QuarterRound(t2, 10, 14, 2, 6);
    Quarter(t2, 10, 14, 2, 6);
    assert t3[14] == 0x1063_6640 && t3[2] == 0xcad3_040f && t3[6] == 0x3b1c_8ae2 && t3[10] == 0xf7a1_d302;
    var t4 := QuarterRound(t3, 15, 3, 7, 11);
    Quarter(t3, 15, 3, 7, 11);
    assert t4[3] == 0xbdcc_c81d && t4[7] == 0xb1d6_48c3 && t4[11] == 0x0095_f37f && t4[15] == 0xc0c0_06e6;
  }

  /** The row round of double round 3 of block 7. */
  lemma B7Row3(s: seq<bv32>)
    requires IsBlock(s)
    requires s[0] == 0x121a_bf28 && s[1] == 0x3c87_0001 && s[2] == 0xcad3_040f && s[3] == 0xbdcc_c81d &&
      s[4] == 0xe687_53d8 && s[5] == 0xd53e_e198 && s[6] == 0x3b1c_8ae2 && s[7] == 0xb1d6_48c3 &&
      s[8] == 0x3f8b_b4b6 && s[9] == 0x062a_2531 && s[10] == 0xf7a1_d302 && s[11] == 0x0095_f37f &&
      s[12] == 0x4b82_2f7a && s[13] == 0x3689_e91c && s[14] == 0x1063_6640 && s[15] == 0xc0c0_06e6
    ensures var r := RowRound(s);
      r[0] == 0xfb16_46ee && r[1] == 0xcf44_a2e6 && r[2] == 0x7417_19cd && r[3] == 0xca5a_a076 &&
      r[4] == 0x45cc_5158 && r[5] == 0x36f8_e6b4 && r[6] == 0xd806_32bf && r[7] == 0x3bfe_e799 &&
      r[8] == 0x28f0_b30c && r[9] == 0x559b_84fa && r[10] == 0x17b8_2932 && r[11] == 0xe569_ea81 &&
      r[12] == 0xda34_bc12 && r[13] == 0xdf0c_1829 && r[14] == 0x0ae4_1168 && r[15] == 0x6687_a126
  {
    RowRoundSteps(s);
    var t1 := QuarterRound(s, 0, 1, 2, 3);
    Quarter(s, 0, 1, 2, 3);
    assert t1[1] == 0xcf44_a2e6 && t1[2] == 0x7417_19cd && t1[3] == 0xca5a_a076 && t1[0] == 0xfb16_46ee;
    var t2 := QuarterRound(t1, 5, 6, 7, 4);
    Quarter(t1, 5, 6, 7, 4);
    assert t2[6] == 0xd806_32bf && t2[7] == 0x3bfe_e799 && t2[4] == 0x45cc_5158 && t2[5] == 0x36f8_e6b4;
    var t3 := QuarterRound(t2, 10, 11, 8, 9);
    Quarter(t2, 10, 11, 8, 9);
    assert t3[11] == 0xe569_ea81 && t3[8] == 0x28f0_b30c && t3[9] == 0x559b_84fa && t3[10] == 0x17b8_2932;
    var t4 := QuarterRound(t3, 15, 12, 13, 14);
    Quarter(t3, 15, 12, 13, 14);
    assert t4[12] == 0xda34_bc12 && t4[13] == 0xdf0c_1829 && t4[14] == 0x0ae4_1168 && t4[15] == 0x6687_a126;
  }

  /** The column round of double round 4 of block 7. */
  lemma B7Col4(s: seq<bv32>)
    requires IsBlock(s)
    requires s[0] == 0xfb16_46ee && s[1] == 0xcf44_a2e6 && s[2] == 0x7417_19cd && s[3] == 0xca5a_a076 &&
      s[4] == 0x45cc_5158 && s[5] == 0x36f8_e6b4 && s[6] == 0xd806_32bf && s[7] == 0x3bfe_e799 &&
      s[8] == 0x28f0_b30c && s[9] == 0x559b_84fa && s[10] == 0x17b8_2932 && s[11] == 0xe569_ea81 &&
      s[12] == 0xda34_bc12 && s[13] == 0xdf0c_1829 && s[14] == 0x0ae4_1168 && s[15] == 0x6687_a126
    ensures var r := ColumnRound(s);
      r[0] == 0xa0a1_cac6 && r[1] == 0x5ee0_75bf && r[2] == 0x7032_ba16 && r[3] == 0x329f_73d3 &&
      r[4] == 0xe04d_d132 && r[5] == 0xd54b_df82 && r[6] == 0x4c70_9a00 && r[7] == 0x75d7_14ab &&
      r[8] == 0xe0c0_f2ba && r[9] == 0x4b5f_49f9 && r[10] == 0x47e2_dbbf && r[11] == 0x3466_3f8f &&
      r[12] == 0x0249_2433 && r[13] == 0x6f6d_432d && r[14] == 0xd5c9_e99f && r[15] == 0x366d_09d3
  {
    ColumnRoundSteps(s);
    var t1 := QuarterRound(s, 0, 4, 8, 12);
    Quarter(s, 0, 4, 8, 12);
    assert t1[4] == 0xe04d_d132 && t1[8] == 0xe0c0_f2ba && t1[12] == 0x0249_2433 && t1[0] == 0xa0a1_cac6;
    var t2 := QuarterRound(t1, 5, 9, 13, 1);
    Quarter(t1, 5, 9, 13, 1);
    assert t2[9] == 0x4b5f_49f9 && t2[13] == 0x6f6d_432d && t2[1] == 0x5ee0_75bf && t2[5] == 0xd54b_df82;
    var t3 := QuarterRound(t2, 10, 14, 2, 6);
    Quarter(t2, 10, 14, 2, 6);
    assert t3[14] == 0xd5c9_e99f && t3[2] == 0x7032_ba16 && t3[6] == 0x4c70_9a00 && t3[10] == 0x47e2_dbbf;
    var t4 := QuarterRound(t3, 15, 3, 7, 11);
    Quarter(t3, 15, 3, 7, 11);
    assert t4[3] == 0x329f_73d3 && t4[7] == 0x75d7_14ab && t4[11] == 0x3466_3f8f && t4[15] == 0x366d_09d3;
  }

  /** The row round of double round 4 of block 7. */
  lemma B7Row4(s: seq<bv32>)
    requires IsBlock(s)
    requires s[0] == 0xa0a1_cac6 && s[1] == 0x5ee0_75bf && s[2] == 0x7032_ba16 && s[3] == 0x329f_73d3 &&
      s[4] == 0xe04d_d132 && s[5] == 0xd54b_df82 && s[6] == 0x4c70_9a00 && s[7] == 0x75d7_14ab &&
      s[8] == 0xe0c0_f2ba && s[9] == 0x4b5f_49f9 && s[10] == 0x47e2_dbbf && s[11] == 0x3466_3f8f &&
      s[12] == 0x0249_2433 && s[13] == 0x6f6d_432d && s[14] == 0xd5c9_e99f && s[15] == 0x366d_09d3
    ensures var r := RowRound(s);
      r[0] == 0x4311_17ea && r[1] == 0xfe7f_3956 && r[2] == 0x323a_8328 && r[3] == 0x0510_b5c4 &&
      r[4] == 0xcdc6_9280 && r[5] == 0x2f4a_753e && r[6] == 0x80a8_c05a && r[7] == 0x9ce8_ac00 &&
      r[8] == 0x4fbf_f900 && r[9] == 0xd0c7_955f && r[10] == 0x7e9e_59a1 && r[11] == 0x9574_e3c6 &&
      r[12] == 0x1930_9d35 && r[13] == 0x5423_53b2 && r[14] == 0xabd5_0435 && r[15] == 0x69f2_f632
  {
    RowRoundSteps(s);
    var t1 := QuarterRound(s, 0, 1, 2, 3);
    Quarter(s, 0, 1, 2, 3);
    assert t1[1] == 0xfe7f_3956 && t1[2] == 0x323a_8328 && t1[3] == 0x0510_b5c4 && t1[0] == 0x4311_17ea;
    var t2 := QuarterRound(t1, 5, 6, 7, 4);
    Quarter(t1, 5, 6, 7, 4);
    assert t2[6] == 0x80a8_c05a && t2[7] == 0x9ce8_ac00 && t2[4] == 0xcdc6_9280 && t2[5] == 0x2f4a_753e;
    var t3 := QuarterRound(t2, 10, 11, 8, 9);
    Quarter(t2, 10, 11, 8, 9);
    assert t3[11] == 0x9574_e3c6 && t3[8] == 0x4fbf_f900 && t3[9] == 0xd0c7_955f && t3[10] == 0x7e9e_59a1;
    var t4 := QuarterRound(t3, 15, 12, 13, 14);
    Quarter(t3, 15, 12, 13, 14);
    assert t4[12] == 0x1930_9d35 && t4[13] == 0x5423_53b2 && t4[14] == 0xabd5_0435 && t4[15] == 0x69f2_f632;
  }

  /** The column round of double round 5 of block 7. */
  lemma B7Col5(s: seq<bv32>)
    requires IsBlock(s)
    requires s[0] == 0x4311_17ea && s[1] == 0xfe7f_3956 && s[2] == 0x323a_8328 && s[3] == 0x0510_b5c4 &&
      s[4] == 0xcdc6_9280 && s[5] == 0x2f4a_753e && s[6] == 0x80a8_c05a && s[7] == 0x9ce8_ac00 &&
      s[8] == 0x4fbf_f900 && s[9] == 0xd0c7_955f && s[10] == 0x7e9e_59a1 && s[11] == 0x9574_e3c6 &&
      s[12] == 0x1930_9d35 && s[13] == 0x5423_53b2 && s[14] == 0xabd5_0435 && s[15] == 0x69f2_f632
    ensures var r := ColumnRound(s);
      r[0] == 0xd83d_f936 && r[1] == 0x99e8_9b85 && r[2] == 0xc29c_5425 && r[3] == 0xb6fc_49bb &&
      r[4] == 0xed1c_1d2e && r[5] == 0xccaf_84f5 && r[6] == 0x4915_3904 && r[7] == 0x4297_7641 &&
      r[8] == 0x15d5_c960 && r[9] == 0x3410_df49 && r[10] == 0x4a3a_7767 && r[11] == 0xe28b_7cf4 &&
      r[12] == 0x25e1_5d6b && r[13] == 0xe28a_5d74 && r[14] == 0x0859_f9ca && r[15] == 0xa526_62b9
  {
    ColumnRoundSteps(s);
    var t1 := QuarterRound(s, 0, 4, 8, 12);
    Quarter(s, 0, 4, 8, 12);
    assert t1[4] == 0xed1c_1d2e && t1[8] == 0x15d5_c960 && t1[12] == 0x25e1_5d6b && t1[0] == 0xd83d_f936;
    var t2 := QuarterRound(t1, 5, 9, 13, 1);
    Quarter(t1, 5, 9, 13, 1);
    assert t2[9] == 0x3410_df49 && t2[13] == 0xe28a_5d74 && t2[1] == 0x99e8_9b85 && t2[5] == 0xccaf_84f5;
    var t3 := QuarterRound(t2, 10, 14, 2, 6);
    Quarter(t2, 10, 14, 2, 6);
    assert t3[14] == 0x0859_f9ca && t3[2] == 0xc29c_5425 && t3[6] == 0x4915_3904 && t3[10] == 0x4a3a_7767;
    var t4 := QuarterRound(t3, 15, 3, 7, 11);
    Quarter(t3, 15, 3, 7, 11);
    assert t4[3] == 0xb6fc_49bb && t4[7] == 0x4297_7641 && t4[11] == 0xe28b_7cf4 && t4[15] == 0xa526_62b9;
  }

  /** The row round of double round 5 of block 7. */
  lemma B7Row5(s: seq<bv32>)
    requires IsBlock(s)
    requires s[0] == 0xd83d_f936 && s[1] == 0x99e8_9b85 && s[2] == 0xc29c_5425 && s[3] == 0xb6fc_49bb &&
      s[4] == 0xed1c_1d2e && s[5] == 0xccaf_84f5 && s[6] == 0x4915_3904 && s[7] == 0x4297_7641 &&
      s[8] == 0x15d5_c960 && s[9] == 0x3410_df49 && s[10] == 0x4a3a_7767 && s[11] == 0xe28b_7cf4 &&
      s[12] == 0x25e1_5d6b && s[13] == 0xe28a_5d74 && s[14] == 0x0859_f9ca && s[15] == 0xa526_62b9
    ensures var r := RowRound(s);
      r[0] == 0xbca9_2d22 && r[1] == 0x04c9_e342 && r[2] == 0xcd24_a59f && r[3] == 0x67e0_7386 &&
      r[4] == 0xcfad_777c && r[5] == 0x5c12_511c && r[6] == 0xacc4_28d8 && r[7] == 0xa5cc_ecb3 &&
      r[8] == 0xa0ed_ad42 && r[9] == 0x8e51_7248 && r[10] == 0x3412_cb9b && r[11] == 0xc720_24cb &&
      r[12] == 0xe5cf_1cbd && r[13] == 0x0874_b061 && r[14] == 0x71fa_2402 && r[15] == 0xf4ab_8b02
  {
    RowRoundSteps(s);
    var t1 := QuarterRound(s, 0, 1, 2, 3);
    Quarter(s, 0, 1, 2, 3);
    assert t1[1] == 0x04c9_e342 && t1[2] == 0xcd24_a59f && t1[3] == 0x67e0_7386 && t1[0] == 0xbca9_2d22;
    var t2 := QuarterRound(t1, 5, 6, 7, 4);
    Quarter(t1, 5, 6, 7, 4);
    assert t2[6] == 0xacc4_28d8 && t2[7] == 0xa5cc_ecb3 && t2[4] == 0xcfad_777c && t2[5] == 0x5c12_511c;
    var t3 := QuarterRound(t2, 10, 11, 8, 9);
    Quarter(t2, 10, 11, 8, 9);
    assert t3[11] == 0xc720_24cb && t3[8] == 0xa0ed_ad42 && t3[9] == 0x8e51_7248 && t3[10] == 0x3412_cb9b;
    var t4 := QuarterRound(t3, 15, 12, 13, 14);
    Quarter(t3, 15, 12, 13, 14);
    assert t4[12] == 0xe5cf_1cbd && t4[13] == 0x0874_b061 && t4[14] == 0x71fa_2402 && t4[15] == 0xf4ab_8b02;
  }

  /** The column round of double round 6 of block 7. */
  lemma B7Col6(s: seq<bv32>)
    requires IsBlock(s)
    requires s[0] == 0xbca9_2d22 && s[1] == 0x04c9_e342 && s[2] == 0xcd24_a59f && s[3] == 0x67e0_7386 &&
      s[4] == 0xcfad_777c && s[5] == 0x5c12_511c && s[6] == 0xacc4_28d8 && s[7] == 0xa5cc_ecb3 &&
      s[8] == 0xa0ed_ad42 && s[9] == 0x8e51_7248 && s[10] == 0x3412_cb9b && s[11] == 0xc720_24cb &&
      s[12] == 0xe5cf_1cbd && s[13] == 0x0874_b061 && s[14] == 0x71fa_2402 && s[15] == 0xf4ab_8b02
    ensures var r := ColumnRound(s);
      r[0] == 0xcba2_aad6 && r[1] == 0x9a7b_d12c && r[2] == 0xe8f7_bf02 && r[3] == 0x8237_955b &&
      r[4] == 0xf389_98ad && r[5] == 0xf907_6789 && r[6] == 0x575a_a8b6 && r[7] == 0x638c_565e &&
      r[8] == 0xc566_3222 && r[9] == 0xe04b_5d78 && r[10] == 0xaaf3_cad2 && r[11] == 0xba57_1873 &&
      r[12] == 0x1c96_eba0 && r[13] == 0xb329_9819 && r[14] == 0x1a80_1df2 && r[15] == 0x4fef_fc8f
  {
    ColumnRoundSteps(s);
    var t1 := QuarterRound(s, 0, 4, 8, 12);
    Quarter(s, 0, 4, 8, 12);
    assert t1[4] == 0xf389_98ad && t1[8] == 0xc566_3222 && t1[12] == 0x1c96_eba0 && t1[0] == 0xcba2_aad6;
    var t2 := QuarterRound(t1, 5, 9, 13, 1);
    Quarter(t1, 5, 9, 13, 1);
    assert t2[9] == 0xe04b_5d78 && t2[13] == 0xb329_9819 && t2[1] == 0x9a7b_d12c && t2[5] == 0xf907_6789;
    var t3 := QuarterRound(t2, 10, 14, 2, 6);
    Quarter(t2, 10, 14, 2, 6);
    assert t3[14] == 0x1a80_1df2 && t3[2] == 0xe8f7_bf02 && t3[6] == 0x575a_a8b6 && t3[10] == 0xaaf3_cad2;
    var t4 := QuarterRound(t3, 15, 3, 7, 11);
    Quarter(t3, 15, 3, 7, 11);
    assert t4[3] == 0x8237_955b && t4[7] == 0x638c_565e && t4[11] == 0xba57_1873 && t4[15] == 0x4fef_fc8f;
  }

  /** The row round of double round 6 of block 7. */
  lemma B7Row6(s: seq<bv32>)
    requires IsBlock(s)
    requires s[0] == 0xcba2_aad6 && s[1] == 0x9a7b_d12c && s[2] == 0xe8f7_bf02 && s[3] == 0x8237_955b &&
      s[4] == 0xf389_98ad && s[5] == 0xf907_6789 && s[6] == 0x575a_a8b6 && s[7] == 0x638c_565e &&
      s[8] == 0xc566_3222 && s[9] == 0xe04b_5d78 && s[10] == 0xaaf3_cad2 && s[11] == 0xba57_1873 &&
      s[12] == 0x1c96_eba0 && s[13] == 0xb329_9819 && s[14] == 0x1a80_1df2 && s[15] == 0x4fef_fc8f
    ensures var r := RowRound(s);
      r[0] == 0x454d_5602 && r[1] == 0x775b_c98a && r[2] == 0x141f_7f87 && r[3] == 0xeb15_a434 &&
      r[4] == 0x5c8c_605f && r[5] == 0x6a3f_7695 && r[6] == 0x1fda_b3c0 && r[7] == 0xa7ba_c46f &&
      r[8] == 0xab76_2383 && r[9] == 0xcc5c_675f && r[10] == 0x817a_1598 && r[11] == 0x25c3_3d36 &&
      r[12] == 0x249b_ab15 && r[13] == 0xa466_d0f0 && r[14] == 0x5500_a4d2 && r[15] == 0x98e4_1912
  {
    RowRoundSteps(s);
    var t1 := QuarterRound(s, 0, 1, 2, 3);
    Quarter(s, 0, 1, 2, 3);
    assert t1[1] == 0x775b_c98a && t1[2] == 0x141f_7f87 && t1[3] == 0xeb15_a434 && t1[0] == 0x454d_5602;
    var t2 := QuarterRound(t1, 5, 6, 7, 4);
    Quarter(t1, 5, 6, 7, 4);
    assert t2[6] == 0x1fda_b3c0 && t2[7] == 0xa7ba_c46f && t2[4] == 0x5c8c_605f && t2[5] == 0x6a3f_7695;
    var t3 := QuarterRound(t2, 10, 11, 8, 9);
    Quarter(t2, 10, 11, 8, 9);
    assert t3[11] == 0x25c3_3d36 && t3[8] == 0xab76_2383 && t3[9] == 0xcc5c_675f && t3[10] == 0x817a_1598;
    var t4 := QuarterRound(t3, 15, 12, 13, 14);
    Quarter(t3, 15, 12, 13, 14);
    assert t4[12] == 0x249b_ab15 && t4[13] == 0xa466_d0f0 && t4[14] == 0x5500_a4d2 && t4[15] == 0x98e4_1912;
  }

  /** The column round of double round 7 of block 7. */
  lemma B7Col7(s: seq<bv32>)
    requires IsBlock(s)
    requires s[0] == 0x454d_5602 && s[1] == 0x775b_c98a && s[2] == 0x141f_7f87 && s[3] == 0xeb15_a434 &&
      s[4] == 0x5c8c_605f && s[5] == 0x6a3f_7695 && s[6] == 0x1fda_b3c0 && s[7] == 0xa7ba_c46f &&
      s[8] == 0xab76_2383 && s[9] == 0xcc5c_675f && s[10] == 0x817a_1598 && s[11] == 0x25c3_3d36 &&
      s[12] == 0x249b_ab15 && s[13] == 0xa466_d0f0 && s[14] == 0x5500_a4d2 && s[15] == 0x98e4_1912
    ensures var r := ColumnRound(s);
      r[0] == 0xecf7_3626 && r[1] == 0xef41_3330 && r[2] == 0xa823_4a86 && r[3] == 0xb8be_806b &&
      r[4] == 0xa80c_ebeb && r[5] == 0x475c_7af3 && r[6] == 0xf5bb_a730 && r[7] == 0xe288_3ecc &&
      r[8] == 0x1ff5_f859 && r[9] == 0x01fc_68af && r[10] == 0x47a0_62e3 && r[11] == 0xf225_ce5e &&
      r[12] == 0x7813_3215 && r[13] == 0xd3d8_5828 && r[14] == 0xff64_0882 && r[15] == 0xac4f_4baa
  {
    ColumnRoundSteps(s);
    var t1 := QuarterRound(s, 0, 4, 8, 12);
    Quarter(s, 0, 4, 8, 12);
    assert t1[4] == 0xa80c_ebeb && t1[8] == 0x1ff5_f859 && t1[12] == 0x7813_3215 && t1[0] == 0xecf7_3626;
    var t2 := QuarterRound(t1, 5, 9, 13, 1);
    Quarter(t1, 5, 9, 13, 1);
    assert t2[9] == 0x01fc_68af && t2[13] == 0xd3d8_5828 && t2[1] == 0xef41_3330 && t2[5] == 0x475c_7af3;
    var t3 := QuarterRound(t2, 10, 14, 2, 6);
    Quarter(t2, 10, 14, 2, 6);
    assert t3[14] == 0xff64_0882 && t3[2] == 0xa823_4a86 && t3[6] == 0xf5bb_a730 && t3[10] == 0x47a0_62e3;
    var t4 := QuarterRound(t3, 15, 3, 7, 11);
    Quarter(t3, 15, 3, 7, 11);
    assert t4[3] == 0xb8be_806b && t4[7] == 0xe288_3ecc && t4[11] == 0xf225_ce5e && t4[15] == 0xac4f_4baa;
  }

  /** The row round of double round 7 of block 7. */
  lemma B7Row7(s: seq<bv32>)
    requires IsBlock(s)
    requires s[0] == 0xecf7_3626 && s[1] == 0xef41_3330 && s[2] == 0xa823_4a86 && s[3] == 0xb8be_806b &&
      s[4] == 0xa80c_ebeb && s[5] == 0x475c_7af3 && s[6] == 0xf5bb_a730 && s[7] == 0xe288_3ecc &&
      s[8] == 0x1ff5_f859 && s[9] == 0x01fc_68af && s[10] == 0x47a0_62e3 && s[11] == 0xf225_ce5e &&
      s[12] == 0x7813_3215 && s[13] == 0xd3d8_5828 && s[14] == 0xff64_0882 && s[15] == 0xac4f_4baa
    ensures var r := RowRound(s);
      r[0] == 0xa01f_00e0 && r[1] == 0x359a_7be2 && r[2] == 0x8b47_5ac3 && r[3] == 0x826a_3877 &&
      r[4] == 0x4a88_86c9 && r[5] == 0x0dc9_b0a8 && r[6] == 0x4108_c847 && r[7] == 0x280e_4bdc &&
      r[8] == 0xdf21_435e && r[9] == 0x28a7_6bc3 && r[10] == 0xfb24_7dc1 && r[11] == 0x3c40_077a &&
      r[12] == 0xa1b9_2440 && r[13] == 0xc307_8cb4 && r[14] == 0xe97a_841a && r[15] == 0xef75_f9a2
  {
    RowRoundSteps(s);
    var t1 := QuarterRound(s, 0, 1, 2, 3);
    Quarter(s, 0, 1, 2, 3);
    assert t1[1] == 0x359a_7be2 && t1[2] == 0x8b47_5ac3 && t1[3] == 0x826a_3877 && t1[0] == 0xa01f_00e0;
    var t2 := QuarterRound(t1, 5, 6, 7, 4);
    Quarter(t1, 5, 6, 7, 4);
    assert t2[6] == 0x4108_c847 && t2[7] == 0x280e_4bdc && t2[4] == 0x4a88_86c9 && t2[5] == 0x0dc9_b0a8;
    var t3 := QuarterRound(t2, 10, 11, 8, 9);
    Quarter(t2, 10, 11, 8, 9);
    assert t3[11] == 0x3c40_077a && t3[8] == 0xdf21_435e && t3[9] == 0x28a7_6bc3 && t3[10] == 0xfb24_7dc1;
    var t4 := QuarterRound(t3, 15, 12, 13, 14);
    Quarter(t3, 15, 12, 13, 14);
    assert t4[12] == 0xa1b9_2440 && t4[13] == 0xc307_8cb4 && t4[14] == 0xe97a_841a && t4[15] == 0xef75_f9a2;
  }

  /** The column round of double round 8 of block 7. */
  lemma B7Col8(s: seq<bv32>)
    requires IsBlock(s)
    requires s[0] == 0xa01f_00e0 && s[1] == 0x359a_7be2 && s[2] == 0x8b47_5ac3 && s[3] == 0x826a_3877 &&
      s[4] == 0x4a88_86c9 && s[5] == 0x0dc9_b0a8 && s[6] == 0x4108_c847 && s[7] == 0x280e_4bdc &&
      s[8] == 0xdf21_435e && s[9] == 0x28a7_6bc3 && s[10] == 0xfb24_7dc1 && s[11] == 0x3c40_077a &&
      s[12] == 0xa1b9_2440 && s[13] == 0xc307_8cb4 && s[14] == 0xe97a_841a && s[15] == 0xef75_f9a2
    ensures var r := ColumnRound(s);
      r[0] == 0xa03e_a616 && r[1] == 0x0c82_a1cf && r[2] == 0x70bc_d136 && r[3] == 0x596a_b662 &&
      r[4] == 0xa69a_16e9 && r[5] == 0xe304_bc44 && r[6] == 0x8b2f_8655 && r[7] == 0xe96e_434d &&
      r[8] == 0xad0e_d1d3 && r[9] == 0x9ab1_2ee2 && r[10] == 0xa50b_9270 && r[11] == 0x2375_ef21 &&
      r[12] == 0xbcae_ae35 && r[13] == 0x36b8_99e4 && r[14] == 0xffd9_8004 && r[15] == 0x26cd_ca32
  {
    ColumnRoundSteps(s);
    var t1 := QuarterRound(s, 0, 4, 8, 12);
    Quarter(s, 0, 4, 8, 12);
    assert t1[4] == 0xa69a_16e9 && t1[8] == 0xad0e_d1d3 && t1[12] == 0xbcae_ae35 && t1[0] == 0xa03e_a616;
    var t2 := QuarterRound(t1, 5, 9, 13, 1);
    Quarter(t1, 5, 9, 13, 1);
    assert t2[9] == 0x9ab1_2ee2 && t2[13] == 0x36b8_99e4 && t2[1] == 0x0c82_a1cf && t2[5] == 0xe304_bc44;
    var t3 := QuarterRound(t2, 10, 14, 2, 6);
    Quarter(t2, 10, 14, 2, 6);
    assert t3[14] == 0xffd9_8004 && t3[2] == 0x70bc_d136 && t3[6] == 0x8b2f_8655 && t3[10] == 0xa50b_9270;
    var t4 := QuarterRound(t3, 15, 3, 7, 11);
    Quarter(t3, 15, 3, 7, 11);
    assert t4[3] == 0x596a_b662 && t4[7] == 0xe96e_434d && t4[11] == 0x2375_ef21 && t4[15] == 0x26cd_ca32;
  }

  /** The row round of double round 8 of block 7. */
  lemma B7Row8(s: seq<bv32>)
    requires IsBlock(s)
    requires s[0] == 0xa03e_a616 && s[1] == 0x0c82_a1cf && s[2] == 0x70bc_d136 && s[3] == 0x596a_b662 &&
      s[4] == 0xa69a_16e9 && s[5] == 0xe304_bc44 && s[6] == 0x8b2f_8655 && s[7] == 0xe96e_434d &&
      s[8] == 0xad0e_d1d3 && s[9] == 0x9ab1_2ee2 && s[10] == 0xa50b_9270 && s[11] == 0x2375_ef21 &&
      s[12] == 0xbcae_ae35 && s[13] == 0x36b8_99e4 && s[14] == 0xffd9_8004 && s[15] == 0x26cd_ca32
    ensures var r := RowRound(s);
      r[0] == 0xd5ef_8815 && r[1] == 0xd82c_9db3 && r[2] == 0xa63b_43c6 && r[3] == 0xa545_99ae &&
      r[4] == 0x19a8_8ece && r[5] == 0x3c42_e6c5 && r[6] == 0x4446_1091 && r[7] == 0x7cf7_e903 &&
      r[8] == 0xecbf_8c97 && r[9] == 0x00eb_93d8 && r[10] == 0x24b4_24dc && r[11] == 0xfd15_463e &&
      r[12] == 0xef0b_b526 && r[13] == 0x8446_29cf && r[14] == 0xc407_2e6e && r[15] == 0x4638_eb07
  {
    RowRoundSteps(s);
    var t1 := QuarterRound(s, 0, 1, 2, 3);
    Quarter(s, 0, 1, 2, 3);
    assert t1[1] == 0xd82c_9db3 && t1[2] == 0xa63b_43c6 && t1[3] == 0xa545_99ae && t1[0] == 0xd5ef_8815;
    var t2 := QuarterRound(t1, 5, 6, 7, 4);
    Quarter(t1, 5, 6, 7, 4);
    assert t2[6] == 0x4446_1091 && t2[7] == 0x7cf7_e903 && t2[4] == 0x19a8_8ece && t2[5] == 0x3c42_e6c5;
    var t3 := QuarterRound(t2, 10, 11, 8, 9);
    Quarter(t2, 10, 11, 8, 9);
    assert t3[11] == 0xfd15_463e && t3[8] == 0xecbf_8c97 && t3[9] == 0x00eb_93d8 && t3[10] == 0x24b4_24dc;
    var t4 := QuarterRound(t3, 15, 12, 13, 14);
    Quarter(t3, 15, 12, 13, 14);
    assert t4[12] == 0xef0b_b526 && t4[13] == 0x8446_29cf && t4[14] == 0xc407_2e6e && t4[15] == 0x4638_eb07;
  }

  /** The column round of double round 9 of block 7. */
  lemma B7Col9(s: seq<bv32>)
    requires IsBlock(s)
    requires s[0] == 0xd5ef_8815 && s[1] == 0xd82c_9db3 && s[2] == 0xa63b_43c6 && s[3] == 0xa545_99ae &&
      s[4] == 0x19a8_8ece && s[5] == 0x3c42_e6c5 && s[6] == 0x4446_1091 && s[7] == 0x7cf7_e903 &&
      s[8] == 0xecbf_8c97 && s[9] == 0x00eb_93d8 && s[10] == 0x24b4_24dc && s[11] == 0xfd15_463e &&
      s[12] == 0xef0b_b526 && s[13] == 0x8446_29cf && s[14] == 0xc407_2e6e && s[15] == 0x4638_eb07
    ensures var r := ColumnRound(s);
      r[0] == 0x593d_4358 && r[1] == 0x4ef3_ef21 && r[2] == 0x0540_2e7d && r[3] == 0x025d_3b0f &&
      r[4] == 0x6436_132c && r[5] == 0xe568_57be && r[6] == 0xfcac_e75a && r[7] == 0x50bb_c592 &&
      r[8] == 0xa789_0ee3 && r[9] == 0x3729_afd2 && r[10] == 0x73e8_2368 && r[11] == 0xdd01_6c5d &&
      r[12] == 0x0b4a_5451 && r[13] == 0x5d6b_0729 && r[14] == 0xb91d_98da && r[15] == 0x8184_5df3
  {
    ColumnRoundSteps(s);
    var t1 := QuarterRound(s, 0, 4, 8, 12);
    Quarter(s, 0, 4, 8, 12);
    assert t1[4] == 0x6436_132c && t1[8] == 0xa789_0ee3 && t1[12] == 0x0b4a_5451 && t1[0] == 0x593d_4358;
    var t2 := QuarterRound(t1, 5, 9, 13, 1);
    Quarter(t1, 5, 9, 13, 1);
    assert t2[9] == 0x3729_afd2 && t2[13] == 0x5d6b_0729 && t2[1] == 0x4ef3_ef21 && t2[5] == 0xe568_57be;
    var t3 := QuarterRound(t2, 10, 14, 2, 6);
    Quarter(t2, 10, 14, 2, 6);
    assert t3[14] == 0xb91d_98da && t3[2] == 0x0540_2e7d && t3[6] == 0xfcac_e75a && t3[10] == 0x73e8_2368;
    var t4 := QuarterRound(t3, 15, 3, 7, 11);
    Quarter(t3, 15, 3, 7, 11);
    assert t4[3] == 0x025d_3b0f && t4[7] == 0x50bb_c592 && t4[11] == 0xdd01_6c5d && t4[15] == 0x8184_5df3;
  }

  /** The row round of double round 9 of block 7. */
  lemma B7Row9(s: seq<bv32>)
    requires IsBlock(s)
    requires s[0] == 0x593d_4358 && s[1] == 0x4ef3_ef21 && s[2] == 0x0540_2e7d && s[3] == 0x025d_3b0f &&
      s[4] == 0x6436_132c && s[5] == 0xe568_57be && s[6] == 0xfcac_e75a && s[7] == 0x50bb_c592 &&
      s[8] == 0xa789_0ee3 && s[9] == 0x3729_afd2 && s[10] == 0x73e8_2368 && s[11] == 0xdd01_6c5d &&
      s[12] == 0x0b4a_5451 && s[13] == 0x5d6b_0729 && s[14] == 0xb91d_98da && s[15] == 0x8184_5df3
    ensures var r := RowRound(s);
      r[0] == 0x9c8b_f204 && r[1] == 0x83cc_dc8c && r[2] == 0x117f_e7c7 && r[3] == 0x9ad7_49a6 &&
      r[4] == 0x4e35_c3cd && r[5] == 0xe0de_d128 && r[6] == 0x3399_927e && r[7] == 0x536f_bda0 &&
      r[8] == 0x05a1_ef70 && r[9] == 0x6b26_a4a3 && r[10] == 0x23a5_e04a && r[11] == 0x55e8_f108 &&
      r[12] == 0x5bb1_32cc && r[13] == 0x364a_7893 && r[14] == 0xcc76_6ae5 && r[15] == 0x0c64_56f0
  {
    RowRoundSteps(s);
    var t1 := QuarterRound(s, 0, 1, 2, 3);
    Quarter(s, 0, 1, 2, 3);
    assert t1[1] == 0x83cc_dc8c && t1[2] == 0x117f_e7c7 && t1[3] == 0x9ad7_49a6 && t1[0] == 0x9c8b_f204;
    var t2 := QuarterRound(t1, 5, 6, 7, 4);
    Quarter(t1, 5, 6, 7, 4);
    assert t2[6] == 0x3399_927e && t2[7] == 0x536f_bda0 && t2[4] == 0x4e35_c3cd && t2[5] == 0xe0de_d128;
    var t3 := QuarterRound(t2, 10, 11, 8, 9);
    Quarter(t2, 10, 11, 8, 9);
    assert t3[11] == 0x55e8_f108 && t3[8] == 0x05a1_ef70 && t3[9] == 0x6b26_a4a3 && t3[10] == 0x23a5_e04a;
    var t4 := QuarterRound(t3, 15, 12, 13, 14);
    Quarter(t3, 15, 12, 13, 14);
    assert t4[12] == 0x5bb1_32cc && t4[13] == 0x364a_7893 && t4[14] == 0xcc76_6ae5 && t4[15] == 0x0c64_56f0;
  }

  /** The initial block of block number 7. */
  lemma B7Init()
    ensures var s := InitBlock(TestKey, 0, 7);
      s[0] == 0x6170_7865 && s[1] == 0x0000_0080 && s[2] == 0x0000_0000 && s[3] == 0x0000_0000 &&
      s[4] == 0x0000_0000 && s[5] == 0x3320_646e && s[6] == 0x0000_0000 && s[7] == 0x0000_0000 &&
      s[8] == 0x0000_0007 && s[9] == 0x0000_0000 && s[10] == 0x7962_2d32 && s[11] == 0x0000_0000 &&
      s[12] == 0x0000_0000 && s[13] == 0x0000_0000 && s[14] == 0x0000_0000 && s[15] == 0x6b20_6574
  {
  }

  /** Block 7 after 0 double rounds. */
  lemma B7After0()
    ensures var s := DoubleRounds(InitBlock(TestKey, 0, 7), 0);
      IsBlock(s) &&
      s[0] == 0x6170_7865 && s[1] == 0x0000_0080 && s[2] == 0x0000_0000 && s[3] == 0x0000_0000 &&
      s[4] == 0x0000_0000 && s[5] == 0x3320_646e && s[6] == 0x0000_0000 && s[7] == 0x0000_0000 &&
      s[8] == 0x0000_0007 && s[9] == 0x0000_0000 && s[10] == 0x7962_2d32 && s[11] == 0x0000_0000 &&
      s[12] == 0x0000_0000 && s[13] == 0x0000_0000 && s[14] == 0x0000_0000 && s[15] == 0x6b20_6574
  {
    B7Init();
  }

  /** Block 7 after 1 double rounds. */
  lemma B7After1()
    ensures var s := DoubleRounds(InitBlock(TestKey, 0, 7), 1);
      IsBlock(s) &&
      s[0] == 0xe0fa_5d9f && s[1] == 0xbe01_140d && s[2] == 0x2673_a549 && s[3] == 0x0718_66bb &&
      s[4] == 0x93b8_74be && s[5] == 0x6d36_9a38 && s[6] == 0x5b0a_6e9a && s[7] == 0xd566_ed88 &&
      s[8] == 0x6cdd_42d9 && s[9] == 0x1b6a_f3ef && s[10] == 0x60e1_8ce9 && s[11] == 0xbad7_17eb &&
      s[12] == 0xeeb3_d32a && s[13] == 0x6a86_2f5b && s[14] == 0xf146_321b && s[15] == 0x05ea_aa57
  {
    B7After0();
    DoubleRoundsNext(InitBlock(TestKey, 0, 7), 0);
    B7Col0(DoubleRounds(InitBlock(TestKey, 0, 7), 0));
    B7Row0(ColumnRound(DoubleRounds(InitBlock(TestKey, 0, 7), 0)));
  }

  /** Block 7 after 2 double rounds. */
  lemma B7After2()
    ensures var s := DoubleRounds(InitBlock(TestKey, 0, 7), 2);
      IsBlock(s) &&
      s[0] == 0x33ac_8168 && s[1] == 0x85a9_46e6 && s[2] == 0xde28_9be4 && s[3] == 0x5ba0_0ba1 &&
      s[4] == 0x436f_1867 && s[5] == 0x5330_2010 && s[6] == 0x1419_c572 && s[7] == 0x2dd6_7906 &&
      s[8] == 0x80d0_2105 && s[9] == 0x2d6e_1b10 && s[10] == 0x0931_a548 && s[11] == 0xd285_4d99 &&
      s[12] == 0x4e03_04fd && s[13] == 0xf389_b520 && s[14] == 0x93f8_5bf7 && s[15] == 0xc66b_f98a
  {
    B7After1();
    DoubleRoundsNext(InitBlock(TestKey, 0, 7), 1);
    B7Col1(DoubleRounds(InitBlock(TestKey, 0, 7), 1));
    B7Row1(ColumnRound(DoubleRounds(InitBlock(TestKey, 0, 7), 1)));
  }

  /** Block 7 after 3 double rounds. */
  lemma B7After3()
    ensures var s := DoubleRounds(InitBlock(TestKey, 0, 7), 3);
      IsBlock(s) &&
      s[0] == 0x82d8_931f && s[1] == 0xbd4e_a797 && s[2] == 0x5886_fdb6 && s[3] == 0x97aa_38d7 &&
      s[4] == 0x50b8_380e && s[5] == 0x714b_2ddb && s[6] == 0xf655_7184 && s[7] == 0x9ef8_af1c &&
      s[8] == 0x8046_5a64 && s[9] == 0x4ac0_9c26 && s[10] == 0xcc65_c4bc && s[11] == 0x6289_fe8b &&
      s[12] == 0x2a93_ebb8 && s[13] == 0xdc2f_f1f2 && s[14] == 0x4df8_4621 && s[15] == 0x31ca_cf56
  {
    B7After2();
    DoubleRoundsNext(InitBlock(TestKey, 0, 7), 2);
    B7Col2(DoubleRounds(InitBlock(TestKey, 0, 7), 2));
    B7Row2(ColumnRound(DoubleRounds(InitBlock(TestKey, 0, 7), 2)));
  }

  /** Block 7 after 4 double rounds. */
  lemma B7After4()
    ensures var s := DoubleRounds(InitBlock(TestKey, 0, 7), 4);
      IsBlock(s) &&
      s[0] == 0xfb16_46ee && s[1] == 0xcf44_a2e6 && s[2] == 0x7417_19cd && s[3] == 0xca5a_a076 &&
      s[4] == 0x45cc_5158 && s[5] == 0x36f8_e6b4 && s[6] == 0xd806_32bf && s[7] == 0x3bfe_e799 &&
      s[8] == 0x28f0_b30c && s[9] == 0x559b_84fa && s[10] == 0x17b8_2932 && s[11] == 0xe569_ea81 &&
      s[12] == 0xda34_bc12 && s[13] == 0xdf0c_1829 && s[14] == 0x0ae4_1168 && s[15] == 0x6687_a126
  {
    B7After3();
    DoubleRoundsNext(InitBlock(TestKey, 0, 7), 3);
    B7Col3(DoubleRounds(InitBlock(TestKey, 0, 7), 3));
    B7Row3(ColumnRound(DoubleRounds(InitBlock(TestKey, 0, 7), 3)));
  }

  /** Block 7 after 5 double rounds. */
  lemma B7After5()
    ensures var s := DoubleRounds(InitBlock(TestKey, 0, 7), 5);
      IsBlock(s) &&
      s[0] == 0x4311_17ea && s[1] == 0xfe7f_3956 && s[2] == 0x323a_8328 && s[3] == 0x0510_b5c4 &&
      s[4] == 0xcdc6_9280 && s[5] == 0x2f4a_753e && s[6] == 0x80a8_c05a && s[7] == 0x9ce8_ac00 &&
      s[8] == 0x4fbf_f900 && s[9] == 0xd0c7_955f && s[10] == 0x7e9e_59a1 && s[11] == 0x9574_e3c6 &&
      s[12] == 0x1930_9d35 && s[13] == 0x5423_53b2 && s[14] == 0xabd5_0435 && s[15] == 0x69f2_f632
  {
    B7After4();
    DoubleRoundsNext(InitBlock(TestKey, 0, 7), 4);
    B7Col4(DoubleRounds(InitBlock(TestKey, 0, 7), 4));
    B7Row4(ColumnRound(DoubleRounds(InitBlock(TestKey, 0, 7), 4)));
  }

  /** Block 7 after 6 double rounds. */
  lemma B7After6()
    ensures var s := DoubleRounds(InitBlock(TestKey, 0, 7), 6);
      IsBlock(s) &&
      s[0] == 0xbca9_2d22 && s[1] == 0x04c9_e342 && s[2] == 0xcd24_a59f && s[3] == 0x67e0_7386 &&
      s[4] == 0xcfad_777c && s[5] == 0x5c12_511c && s[6] == 0xacc4_28d8 && s[7] == 0xa5cc_ecb3 &&
      s[8] == 0xa0ed_ad42 && s[9] == 0x8e51_7248 && s[10] == 0x3412_cb9b && s[11] == 0xc720_24cb &&
      s[12] == 0xe5cf_1cbd && s[13] == 0x0874_b061 && s[14] == 0x71fa_2402 && s[15] == 0xf4ab_8b02
  {
    B7After5();
    DoubleRoundsNext(InitBlock(TestKey, 0, 7), 5);
    B7Col5(DoubleRounds(InitBlock(TestKey, 0, 7), 5));
    B7Row5(ColumnRound(DoubleRounds(InitBlock(TestKey, 0, 7), 5)));
  }

  /** Block 7 after 7 double rounds. */
  lemma B7After7()
    ensures var s := DoubleRounds(InitBlock(TestKey, 0, 7), 7);
      IsBlock(s) &&
      s[0] == 0x454d_5602 && s[1] == 0x775b_c98a && s[2] == 0x141f_7f87 && s[3] == 0xeb15_a434 &&
      s[4] == 0x5c8c_605f && s[5] == 0x6a3f_7695 && s[6] == 0x1fda_b3c0 && s[7] == 0xa7ba_c46f &&
      s[8] == 0xab76_2383 && s[9] == 0xcc5c_675f && s[10] == 0x817a_1598 && s[11] == 0x25c3_3d36 &&
      s[12] == 0x249b_ab15 && s[13] == 0xa466_d0f0 && s[14] == 0x5500_a4d2 && s[15] == 0x98e4_1912
  {
    B7After6();
    DoubleRoundsNext(InitBlock(TestKey, 0, 7), 6);
    B7Col6(DoubleRounds(InitBlock(TestKey, 0, 7), 6));
    B7Row6(ColumnRound(DoubleRounds(InitBlock(TestKey, 0, 7), 6)));
  }

  /** Block 7 after 8 double rounds. */
  lemma B7After8()
    ensures var s := DoubleRounds(InitBlock(TestKey, 0, 7), 8);
      IsBlock(s) &&
      s[0] == 0xa01f_00e0 && s[1] == 0x359a_7be2 && s[2] == 0x8b47_5ac3 && s[3] == 0x826a_3877 &&
      s[4] == 0x4a88_86c9 && s[5] == 0x0dc9_b0a8 && s[6] == 0x4108_c847 && s[7] == 0x280e_4bdc &&
      s[8] == 0xdf21_435e && s[9] == 0x28a7_6bc3 && s[10] == 0xfb24_7dc1 && s[11] == 0x3c40_077a &&
      s[12] == 0xa1b9_2440 && s[13] == 0xc307_8cb4 && s[14] == 0xe97a_841a && s[15] == 0xef75_f9a2
  {
    B7After7();
    DoubleRoundsNext(InitBlock(TestKey, 0, 7), 7);
    B7Col7(DoubleRounds(InitBlock(TestKey, 0, 7), 7));
    B7Row7(ColumnRound(DoubleRounds(InitBlock(TestKey, 0, 7), 7)));
  }

  /** Block 7 after 9 double rounds. */
  lemma B7After9()
    ensures var s := DoubleRounds(InitBlock(TestKey, 0, 7), 9);
      IsBlock(s) &&
      s[0] == 0xd5ef_8815 && s[1] == 0xd82c_9db3 && s[2] == 0xa63b_43c6 && s[3] == 0xa545_99ae &&
      s[4] == 0x19a8_8ece && s[5] == 0x3c42_e6c5 && s[6] == 0x4446_1091 && s[7] == 0x7cf7_e903 &&
      s[8] == 0xecbf_8c97 && s[9] == 0x00eb_93d8 && s[10] == 0x24b4_24dc && s[11] == 0xfd15_463e &&
      s[12] == 0xef0b_b526 && s[13] == 0x8446_29cf && s[14] == 0xc407_2e6e && s[15] == 0x4638_eb07
  {
    B7After8();
    DoubleRoundsNext(InitBlock(TestKey, 0, 7), 8);
    B7Col8(DoubleRounds(InitBlock(TestKey, 0, 7), 8));
    B7Row8(ColumnRound(DoubleRounds(InitBlock(TestKey, 0, 7), 8)));
  }

  /** Block 7 after 10 double rounds. */
  lemma B7After10()
    ensures var s := DoubleRounds(InitBlock(TestKey, 0, 7), 10);
      IsBlock(s) &&
      s[0] == 0x9c8b_f204 && s[1] == 0x83cc_dc8c && s[2] == 0x117f_e7c7 && s[3] == 0x9ad7_49a6 &&
      s[4] == 0x4e35_c3cd && s[5] == 0xe0de_d128 && s[6] == 0x3399_927e && s[7] == 0x536f_bda0 &&
      s[8] == 0x05a1_ef70 && s[9] == 0x6b26_a4a3 && s[10] == 0x23a5_e04a && s[11] == 0x55e8_f108 &&
      s[12] == 0x5bb1_32cc && s[13] == 0x364a_7893 && s[14] == 0xcc76_6ae5 && s[15] == 0x0c64_56f0
  {
    B7After9();
    DoubleRoundsNext(InitBlock(TestKey, 0, 7), 9);
    B7Col9(DoubleRounds(InitBlock(TestKey, 0, 7), 9));
    B7Row9(ColumnRound(DoubleRounds(InitBlock(TestKey, 0, 7), 9)));
  }

  /** Keystream block 7 of the stub program, word by word. */
  lemma KeystreamBlock7()
    ensures var k := Keystream(TestKey, 0, 7);
      k[0] == 0xfdfc_6a69 && k[1] == 0x83cc_dd0c && k[2] == 0x117f_e7c7 && k[3] == 0x9ad7_49a6 &&
      k[4] == 0x4e35_c3cd && k[5] == 0x13ff_3596 && k[6] == 0x3399_927e && k[7] == 0x536f_bda0 &&
      k[8] == 0x05a1_ef77 && k[9] == 0x6b26_a4a3 && k[10] == 0x9d08_0d7c && k[11] == 0x55e8_f108 &&
      k[12] == 0x5bb1_32cc && k[13] == 0x364a_7893 && k[14] == 0xcc76_6ae5 && k[15] == 0x7784_bc64
  {
    B7Init();
    B7After10();
  }

  /** The byte swap of the sixteen keystream words of block 7. */
  lemma B7Swapped()
    ensures LittleEndian(0xfdfc_6a69) == 0x696a_fcfd && LittleEndian(0x83cc_dd0c) == 0x0cdd_cc83 &&
      LittleEndian(0x117f_e7c7) == 0xc7e7_7f11 && LittleEndian(0x9ad7_49a6) == 0xa649_d79a &&
      LittleEndian(0x4e35_c3cd) == 0xcdc3_354e && LittleEndian(0x13ff_3596) == 0x9635_ff13 &&
      LittleEndian(0x3399_927e) == 0x7e92_9933 && LittleEndian(0x536f_bda0) == 0xa0bd_6f53 &&
      LittleEndian(0x05a1_ef77) == 0x77ef_a105 && LittleEndian(0x6b26_a4a3) == 0xa3a4_266b &&
      LittleEndian(0x9d08_0d7c) == 0x7c0d_089d && LittleEndian(0x55e8_f108) == 0x08f1_e855 &&
      LittleEndian(0x5bb1_32cc) == 0xcc32_b15b && LittleEndian(0x364a_7893) == 0x9378_4a36 &&
      LittleEndian(0xcc76_6ae5) == 0xe56a_76cc && LittleEndian(0x7784_bc64) == 0x64bc_8477
  {
  }

  /** The printed words of block 7: the lines 696afcfd0cddcc83c7e77f11a649d79a, cdc3354e9635ff137e929933a0bd6f53, 77efa105a3a4266b7c0d089d08f1e855, cc32b15b93784a36e56a76cc64bc8477. */
  lemma PrintedBlock7()
    ensures var k := Keystream(TestKey, 0, 7);
      LittleEndian(k[0]) == 0x696a_fcfd && LittleEndian(k[1]) == 0x0cdd_cc83 && LittleEndian(k[2]) == 0xc7e7_7f11 && LittleEndian(k[3]) == 0xa649_d79a &&
      LittleEndian(k[4]) == 0xcdc3_354e && LittleEndian(k[5]) == 0x9635_ff13 && LittleEndian(k[6]) == 0x7e92_9933 && LittleEndian(k[7]) == 0xa0bd_6f53 &&
      LittleEndian(k[8]) == 0x77ef_a105 && LittleEndian(k[9]) == 0xa3a4_266b && LittleEndian(k[10]) == 0x7c0d_089d && LittleEndian(k[11]) == 0x08f1_e855 &&
      LittleEndian(k[12]) == 0xcc32_b15b && LittleEndian(k[13]) == 0x9378_4a36 && LittleEndian(k[14]) == 0xe56a_76cc && LittleEndian(k[15]) == 0x64bc_8477
  {
    KeystreamBlock7();
    B7Swapped();
  }

}
