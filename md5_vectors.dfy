/**
 * The test suite of appendix A.5 of RFC 1321 for the empty input and for
 * "abc", evaluated through the model one step at a time: each step lemma
 * pins one of the 64 steps to the intermediate state the algorithm gives.
 */
module Md5Vectors {
  import opened Md5

  /** The constants, message-word indices and shifts of round 1, four steps at a time. */
  lemma Schedule0()
    ensures T[0] == 0xd76aa478 && WordIndex(0) == 0 && Shift(0) == 7
         && T[1] == 0xe8c7b756 && WordIndex(1) == 1 && Shift(1) == 12
         && T[2] == 0x242070db && WordIndex(2) == 2 && Shift(2) == 17
         && T[3] == 0xc1bdceee && WordIndex(3) == 3 && Shift(3) == 22
  {
  }

  lemma Schedule4()
    ensures T[4] == 0xf57c0faf && WordIndex(4) == 4 && Shift(4) == 7
         && T[5] == 0x4787c62a && WordIndex(5) == 5 && Shift(5) == 12
         && T[6] == 0xa8304613 && WordIndex(6) == 6 && Shift(6) == 17
         && T[7] == 0xfd469501 && WordIndex(7) == 7 && Shift(7) == 22
  {
  }

  lemma Schedule8()
    ensures T[8] == 0x698098d8 && WordIndex(8) == 8 && Shift(8) == 7
         && T[9] == 0x8b44f7af && WordIndex(9) == 9 && Shift(9) == 12
         && T[10] == 0xffff5bb1 && WordIndex(10) == 10 && Shift(10) == 17
         && T[11] == 0x895cd7be && WordIndex(11) == 11 && Shift(11) == 22
  {
  }

  lemma Schedule12()
    ensures T[12] == 0x6b901122 && WordIndex(12) == 12 && Shift(12) == 7
         && T[13] == 0xfd987193 && WordIndex(13) == 13 && Shift(13) == 12
         && T[14] == 0xa679438e && WordIndex(14) == 14 && Shift(14) == 17
         && T[15] == 0x49b40821 && WordIndex(15) == 15 && Shift(15) == 22
  {
  }

  /** The constants, message-word indices and shifts of round 2, four steps at a time. */
  lemma Schedule16()
    ensures T[16] == 0xf61e2562 && WordIndex(16) == 1 && Shift(16) == 5
         && T[17] == 0xc040b340 && WordIndex(17) == 6 && Shift(17) == 9
         && T[18] == 0x265e5a51 && WordIndex(18) == 11 && Shift(18) == 14
         && T[19] == 0xe9b6c7aa && WordIndex(19) == 0 && Shift(19) == 20
  {
  }

  lemma Schedule20()
    ensures T[20] == 0xd62f105d && WordIndex(20) == 5 && Shift(20) == 5
         && T[21] == 0x02441453 && WordIndex(21) == 10 && Shift(21) == 9
         && T[22] == 0xd8a1e681 && WordIndex(22) == 15 && Shift(22) == 14
         && T[23] == 0xe7d3fbc8 && WordIndex(23) == 4 && Shift(23) == 20
  {
  }

  lemma Schedule24()
    ensures T[24] == 0x21e1cde6 && WordIndex(24) == 9 && Shift(24) == 5
         && T[25] == 0xc33707d6 && WordIndex(25) == 14 && Shift(25) == 9
         && T[26] == 0xf4d50d87 && WordIndex(26) == 3 && Shift(26) == 14
         && T[27] == 0x455a14ed && WordIndex(27) == 8 && Shift(27) == 20
  {
  }

  lemma Schedule28()
    ensures T[28] == 0xa9e3e905 && WordIndex(28) == 13 && Shift(28) == 5
         && T[29] == 0xfcefa3f8 && WordIndex(29) == 2 && Shift(29) == 9
         && T[30] == 0x676f02d9 && WordIndex(30) == 7 && Shift(30) == 14
         && T[31] == 0x8d2a4c8a && WordIndex(31) == 12 && Shift(31) == 20
  {
  }

  /** The constants, message-word indices and shifts of round 3, four steps at a time. */
  lemma Schedule32()
    ensures T[32] == 0xfffa3942 && WordIndex(32) == 5 && Shift(32) == 4
         && T[33] == 0x8771f681 && WordIndex(33) == 8 && Shift(33) == 11
         && T[34] == 0x6d9d6122 && WordIndex(34) == 11 && Shift(34) == 16
         && T[35] == 0xfde5380c && WordIndex(35) == 14 && Shift(35) == 23
  {
  }

  lemma Schedule36()
    ensures T[36] == 0xa4beea44 && WordIndex(36) == 1 && Shift(36) == 4
         && T[37] == 0x4bdecfa9 && WordIndex(37) == 4 && Shift(37) == 11
         && T[38] == 0xf6bb4b60 && WordIndex(38) == 7 && Shift(38) == 16
         && T[39] == 0xbebfbc70 && WordIndex(39) == 10 && Shift(39) == 23
  {
  }

  lemma Schedule40()
    ensures T[40] == 0x289b7ec6 && WordIndex(40) == 13 && Shift(40) == 4
         && T[41] == 0xeaa127fa && WordIndex(41) == 0 && Shift(41) == 11
         && T[42] == 0xd4ef3085 && WordIndex(42) == 3 && Shift(42) == 16
         && T[43] == 0x04881d05 && WordIndex(43) == 6 && Shift(43) == 23
  {
  }

  lemma Schedule44()
    ensures T[44] == 0xd9d4d039 && WordIndex(44) == 9 && Shift(44) == 4
         && T[45] == 0xe6db99e5 && WordIndex(45) == 12 && Shift(45) == 11
         && T[46] == 0x1fa27cf8 && WordIndex(46) == 15 && Shift(46) == 16
         && T[47] == 0xc4ac5665 && WordIndex(47) == 2 && Shift(47) == 23
  {
  }

  /** The constants, message-word indices and shifts of round 4, four steps at a time. */
  lemma Schedule48()
    ensures T[48] == 0xf4292244 && WordIndex(48) == 0 && Shift(48) == 6
         && T[49] == 0x432aff97 && WordIndex(49) == 7 && Shift(49) == 10
         && T[50] == 0xab9423a7 && WordIndex(50) == 14 && Shift(50) == 15
         && T[51] == 0xfc93a039 && WordIndex(51) == 5 && Shift(51) == 21
  {
  }

  lemma Schedule52()
    ensures T[52] == 0x655b59c3 && WordIndex(52) == 12 && Shift(52) == 6
         && T[53] == 0x8f0ccc92 && WordIndex(53) == 3 && Shift(53) == 10
         && T[54] == 0xffeff47d && WordIndex(54) == 10 && Shift(54) == 15
         && T[55] == 0x85845dd1 && WordIndex(55) == 1 && Shift(55) == 21
  {
  }

  lemma Schedule56()
    ensures T[56] == 0x6fa87e4f && WordIndex(56) == 8 && Shift(56) == 6
         && T[57] == 0xfe2ce6e0 && WordIndex(57) == 15 && Shift(57) == 10
         && T[58] == 0xa3014314 && WordIndex(58) == 6 && Shift(58) == 15
         && T[59] == 0x4e0811a1 && WordIndex(59) == 13 && Shift(59) == 21
  {
  }

  lemma Schedule60()
    ensures T[60] == 0xf7537e82 && WordIndex(60) == 4 && Shift(60) == 6
         && T[61] == 0xbd3af235 && WordIndex(61) == 11 && Shift(61) == 10
         && T[62] == 0x2ad7d2bb && WordIndex(62) == 2 && Shift(62) == 15
         && T[63] == 0xeb86d391 && WordIndex(63) == 9 && Shift(63) == 21
  {
  }

  /** The 16 words of the one block of the padded empty input. */
  predicate EmptyBlock(m: seq<bv32>)
  {
    |m| == 16
    && m[0] == 0x00000080 && m[1] == 0x00000000 && m[2] == 0x00000000 && m[3] == 0x00000000
    && m[4] == 0x00000000 && m[5] == 0x00000000 && m[6] == 0x00000000 && m[7] == 0x00000000
    && m[8] == 0x00000000 && m[9] == 0x00000000 && m[10] == 0x00000000 && m[11] == 0x00000000
    && m[12] == 0x00000000 && m[13] == 0x00000000 && m[14] == 0x00000000 && m[15] == 0x00000000
  }

  lemma EmptyStep0(m: seq<bv32>)
    requires EmptyBlock(m)
    ensures Step([0x67452301, 0xefcdab89, 0x98badcfe, 0x10325476], 0, m)
         == [0x10325476, 0xa5202774, 0xefcdab89, 0x98badcfe]
  {
    Schedule0();
  }

  lemma EmptyStep1(m: seq<bv32>)
    requires EmptyBlock(m)
    ensures Step([0x10325476, 0xa5202774, 0xefcdab89, 0x98badcfe], 1, m)
         == [0x98badcfe, 0xf59592dd, 0xa5202774, 0xefcdab89]
  {
    Schedule0();
  }

  lemma EmptyStep2(m: seq<bv32>)
    requires EmptyBlock(m)
    ensures Step([0x98badcfe, 0xf59592dd, 0xa5202774, 0xefcdab89], 2, m)
         == [0xefcdab89, 0xe7f06b23, 0xf59592dd, 0xa5202774]
  {
    Schedule0();
  }

  lemma EmptyStep3(m: seq<bv32>)
    requires EmptyBlock(m)
    ensures Step([0xefcdab89, 0xe7f06b23, 0xf59592dd, 0xa5202774], 3, m)
         == [0xa5202774, 0x1b163203, 0xe7f06b23, 0xf59592dd]
  {
    Schedule0();
  }

  lemma EmptyStep4(m: seq<bv32>)
    requires EmptyBlock(m)
    ensures Step([0xa5202774, 0x1b163203, 0xe7f06b23, 0xf59592dd], 4, m)
         == [0xf59592dd, 0x32033344, 0x1b163203, 0xe7f06b23]
  {
    Schedule4();
  }

  lemma EmptyStep5(m: seq<bv32>)
    requires EmptyBlock(m)
    ensures Step([0xf59592dd, 0x32033344, 0x1b163203, 0xe7f06b23], 5, m)
         == [0xe7f06b23, 0x2f35d494, 0x32033344, 0x1b163203]
  {
    Schedule4();
  }

  lemma EmptyStep6(m: seq<bv32>)
    requires EmptyBlock(m)
    ensures Step([0xe7f06b23, 0x2f35d494, 0x32033344, 0x1b163203], 6, m)
         == [0x1b163203, 0xf5b158db, 0x2f35d494, 0x32033344]
  {
    Schedule4();
  }

  lemma EmptyStep7(m: seq<bv32>)
    requires EmptyBlock(m)
    ensures Step([0x1b163203, 0xf5b158db, 0x2f35d494, 0x32033344], 7, m)
         == [0x32033344, 0x9bc13ce9, 0xf5b158db, 0x2f35d494]
  {
    Schedule4();
  }

  lemma EmptyStep8(m: seq<bv32>)
    requires EmptyBlock(m)
    ensures Step([0x32033344, 0x9bc13ce9, 0xf5b158db, 0x2f35d494], 8, m)
         == [0x2f35d494, 0x3893b991, 0x9bc13ce9, 0xf5b158db]
  {
    Schedule8();
  }

  lemma EmptyStep9(m: seq<bv32>)
    requires EmptyBlock(m)
    ensures Step([0x2f35d494, 0x3893b991, 0x9bc13ce9, 0xf5b158db], 9, m)
         == [0xf5b158db, 0xfce4a312, 0x3893b991, 0x9bc13ce9]
  {
    Schedule8();
  }

  lemma EmptyStep10(m: seq<bv32>)
    requires EmptyBlock(m)
    ensures Step([0xf5b158db, 0xfce4a312, 0x3893b991, 0x9bc13ce9], 10, m)
         == [0x9bc13ce9, 0xe1ef0576, 0xfce4a312, 0x3893b991]
  {
    Schedule8();
  }

  lemma EmptyStep11(m: seq<bv32>)
    requires EmptyBlock(m)
    ensures Step([0x9bc13ce9, 0xe1ef0576, 0xfce4a312, 0x3893b991], 11, m)
         == [0x3893b991, 0x70768a29, 0xe1ef0576, 0xfce4a312]
  {
    Schedule8();
  }

  lemma EmptyStep12(m: seq<bv32>)
    requires EmptyBlock(m)
    ensures Step([0x3893b991, 0x70768a29, 0xe1ef0576, 0xfce4a312], 12, m)
         == [0xfce4a312, 0xf56c7cf1, 0x70768a29, 0xe1ef0576]
  {
    Schedule12();
  }

  lemma EmptyStep13(m: seq<bv32>)
    requires EmptyBlock(m)
    ensures Step([0xfce4a312, 0xf56c7cf1, 0x70768a29, 0xe1ef0576], 13, m)
         == [0xe1ef0576, 0x374943a7, 0xf56c7cf1, 0x70768a29]
  {
    Schedule12();
  }

  lemma EmptyStep14(m: seq<bv32>)
    requires EmptyBlock(m)
    ensures Step([0xe1ef0576, 0x374943a7, 0xf56c7cf1, 0x70768a29], 14, m)
         == [0x70768a29, 0x5aa53f75, 0x374943a7, 0xf56c7cf1]
  {
    Schedule12();
  }

  lemma EmptyStep15(m: seq<bv32>)
    requires EmptyBlock(m)
    ensures Step([0x70768a29, 0x5aa53f75, 0x374943a7, 0xf56c7cf1], 15, m)
         == [0xf56c7cf1, 0xd6819c6a, 0x5aa53f75, 0x374943a7]
  {
    Schedule12();
  }

  lemma EmptyStep16(m: seq<bv32>)
    requires EmptyBlock(m)
    ensures Step([0xf56c7cf1, 0xd6819c6a, 0x5aa53f75, 0x374943a7], 16, m)
         == [0x374943a7, 0x1c7d7513, 0xd6819c6a, 0x5aa53f75]
  {
    Schedule16();
  }

  lemma EmptyStep17(m: seq<bv32>)
    requires EmptyBlock(m)
    ensures Step([0x374943a7, 0x1c7d7513, 0xd6819c6a, 0x5aa53f75], 17, m)
         == [0x5aa53f75, 0x7bd57a3a, 0x1c7d7513, 0xd6819c6a]
  {
    Schedule16();
  }

  lemma EmptyStep18(m: seq<bv32>)
    requires EmptyBlock(m)
    ensures Step([0x5aa53f75, 0x7bd57a3a, 0x1c7d7513, 0xd6819c6a], 18, m)
         == [0xd6819c6a, 0xc095f13a, 0x7bd57a3a, 0x1c7d7513]
  {
    Schedule16();
  }

  lemma EmptyStep19(m: seq<bv32>)
    requires EmptyBlock(m)
    ensures Step([0xd6819c6a, 0xc095f13a, 0x7bd57a3a, 0x1c7d7513], 19, m)
         == [0x1c7d7513, 0xbd782e17, 0xc095f13a, 0x7bd57a3a]
  {
    Schedule16();
  }

  lemma EmptyStep20(m: seq<bv32>)
    requires EmptyBlock(m)
    ensures Step([0x1c7d7513, 0xbd782e17, 0xc095f13a, 0x7bd57a3a], 20, m)
         == [0x7bd57a3a, 0x3d1e3e6c, 0xbd782e17, 0xc095f13a]
  {
    Schedule20();
  }

  lemma EmptyStep21(m: seq<bv32>)
    requires EmptyBlock(m)
    ensures Step([0x7bd57a3a, 0x3d1e3e6c, 0xbd782e17, 0xc095f13a], 21, m)
         == [0xc095f13a, 0x68b7b3e3, 0x3d1e3e6c, 0xbd782e17]
  {
    Schedule20();
  }

  lemma EmptyStep22(m: seq<bv32>)
    requires EmptyBlock(m)
    ensures Step([0xc095f13a, 0x68b7b3e3, 0x3d1e3e6c, 0xbd782e17], 22, m)
         == [0xbd782e17, 0xeb41643e, 0x68b7b3e3, 0x3d1e3e6c]
  {
    Schedule20();
  }

  lemma EmptyStep23(m: seq<bv32>)
    requires EmptyBlock(m)
    ensures Step([0xbd782e17, 0xeb41643e, 0x68b7b3e3, 0x3d1e3e6c], 23, m)
         == [0x3d1e3e6c, 0xe422531a, 0xeb41643e, 0x68b7b3e3]
  {
    Schedule20();
  }

  lemma EmptyStep24(m: seq<bv32>)
    requires EmptyBlock(m)
    ensures Step([0x3d1e3e6c, 0xe422531a, 0xeb41643e, 0x68b7b3e3], 24, m)
         == [0x68b7b3e3, 0x306ec122, 0xe422531a, 0xeb41643e]
  {
    Schedule24();
  }

  lemma EmptyStep25(m: seq<bv32>)
    requires EmptyBlock(m)
    ensures Step([0x68b7b3e3, 0x306ec122, 0xe422531a, 0xeb41643e], 25, m)
         == [0xeb41643e, 0xd28c77c2, 0x306ec122, 0xe422531a]
  {
    Schedule24();
  }

  lemma EmptyStep26(m: seq<bv32>)
    requires EmptyBlock(m)
    ensures Step([0xeb41643e, 0xd28c77c2, 0x306ec122, 0xe422531a], 26, m)
         == [0xe422531a, 0xa3c663da, 0xd28c77c2, 0x306ec122]
  {
    Schedule24();
  }

  lemma EmptyStep27(m: seq<bv32>)
    requires EmptyBlock(m)
    ensures Step([0xe422531a, 0xa3c663da, 0xd28c77c2, 0x306ec122], 27, m)
         == [0x306ec122, 0xa0572807, 0xa3c663da, 0xd28c77c2]
  {
    Schedule24();
  }

  lemma EmptyStep28(m: seq<bv32>)
    requires EmptyBlock(m)
    ensures Step([0x306ec122, 0xa0572807, 0xa3c663da, 0xd28c77c2], 28, m)
         == [0xd28c77c2, 0x13707036, 0xa0572807, 0xa3c663da]
  {
    Schedule28();
  }

  lemma EmptyStep29(m: seq<bv32>)
    requires EmptyBlock(m)
    ensures Step([0xd28c77c2, 0x13707036, 0xa0572807, 0xa3c663da], 29, m)
         == [0xa3c663da, 0xae7813db, 0x13707036, 0xa0572807]
  {
    Schedule28();
  }

  lemma EmptyStep30(m: seq<bv32>)
    requires EmptyBlock(m)
    ensures Step([0xa3c663da, 0xae7813db, 0x13707036, 0xa0572807], 30, m)
         == [0xa0572807, 0x1c31c384, 0xae7813db, 0x13707036]
  {
    Schedule28();
  }

  lemma EmptyStep31(m: seq<bv32>)
    requires EmptyBlock(m)
    ensures Step([0xa0572807, 0x1c31c384, 0xae7813db, 0x13707036], 31, m)
         == [0x13707036, 0xa2205f1f, 0x1c31c384, 0xae7813db]
  {
    Schedule28();
  }

  lemma EmptyStep32(m: seq<bv32>)
    requires EmptyBlock(m)
    ensures Step([0x13707036, 0xa2205f1f, 0x1c31c384, 0xae7813db], 32, m)
         == [0xae7813db, 0xdf63eaa1, 0xa2205f1f, 0x1c31c384]
  {
    Schedule32();
  }

  lemma EmptyStep33(m: seq<bv32>)
    requires EmptyBlock(m)
    ensures Step([0xae7813db, 0xdf63eaa1, 0xa2205f1f, 0x1c31c384], 33, m)
         == [0x1c31c384, 0xc3689f5b, 0xdf63eaa1, 0xa2205f1f]
  {
    Schedule32();
  }

  lemma EmptyStep34(m: seq<bv32>)
    requires EmptyBlock(m)
    ensures Step([0x1c31c384, 0xc3689f5b, 0xdf63eaa1, 0xa2205f1f], 34, m)
         == [0xa2205f1f, 0x12f3e755, 0xc3689f5b, 0xdf63eaa1]
  {
    Schedule32();
  }

  lemma EmptyStep35(m: seq<bv32>)
    requires EmptyBlock(m)
    ensures Step([0xa2205f1f, 0x12f3e755, 0xc3689f5b, 0xdf63eaa1], 35, m)
         == [0xdf63eaa1, 0x004b6669, 0x12f3e755, 0xc3689f5b]
  {
    Schedule32();
  }

  lemma EmptyStep36(m: seq<bv32>)
    requires EmptyBlock(m)
    ensures Step([0xdf63eaa1, 0x004b6669, 0x12f3e755, 0xc3689f5b], 36, m)
         == [0xc3689f5b, 0x5f7a9b2e, 0x004b6669, 0x12f3e755]
  {
    Schedule36();
  }

  lemma EmptyStep37(m: seq<bv32>)
    requires EmptyBlock(m)
    ensures Step([0xc3689f5b, 0x5f7a9b2e, 0x004b6669, 0x12f3e755], 37, m)
         == [0x12f3e755, 0xabc34e16, 0x5f7a9b2e, 0x004b6669]
  {
    Schedule36();
  }

  lemma EmptyStep38(m: seq<bv32>)
    requires EmptyBlock(m)
    ensures Step([0x12f3e755, 0xabc34e16, 0x5f7a9b2e, 0x004b6669], 38, m)
         == [0x004b6669, 0x91ca4cb7, 0xabc34e16, 0x5f7a9b2e]
  {
    Schedule36();
  }

  lemma EmptyStep39(m: seq<bv32>)
    requires EmptyBlock(m)
    ensures Step([0x004b6669, 0x91ca4cb7, 0xabc34e16, 0x5f7a9b2e], 39, m)
         == [0x5f7a9b2e, 0xc5dc8c15, 0x91ca4cb7, 0xabc34e16]
  {
    Schedule36();
  }

  lemma EmptyStep40(m: seq<bv32>)
    requires EmptyBlock(m)
    ensures Step([0x5f7a9b2e, 0xc5dc8c15, 0x91ca4cb7, 0xabc34e16], 40, m)
         == [0xabc34e16, 0x4497169d, 0xc5dc8c15, 0x91ca4cb7]
  {
    Schedule40();
  }

  lemma EmptyStep41(m: seq<bv32>)
    requires EmptyBlock(m)
    ensures Step([0xabc34e16, 0x4497169d, 0xc5dc8c15, 0x91ca4cb7], 41, m)
         == [0x91ca4cb7, 0x76fd93d4, 0x4497169d, 0xc5dc8c15]
  {
    Schedule40();
  }

  lemma EmptyStep42(m: seq<bv32>)
    requires EmptyBlock(m)
    ensures Step([0x91ca4cb7, 0x76fd93d4, 0x4497169d, 0xc5dc8c15], 42, m)
         == [0xc5dc8c15, 0xfd95f243, 0x76fd93d4, 0x4497169d]
  {
    Schedule40();
  }

  lemma EmptyStep43(m: seq<bv32>)
    requires EmptyBlock(m)
    ensures Step([0xc5dc8c15, 0xfd95f243, 0x76fd93d4, 0x4497169d], 43, m)
         == [0x4497169d, 0x0fe32453, 0xfd95f243, 0x76fd93d4]
  {
    Schedule40();
  }

  lemma EmptyStep44(m: seq<bv32>)
    requires EmptyBlock(m)
    ensures Step([0x4497169d, 0x0fe32453, 0xfd95f243, 0x76fd93d4], 44, m)
         == [0x76fd93d4, 0x3f55edfd, 0x0fe32453, 0xfd95f243]
  {
    Schedule44();
  }

  lemma EmptyStep45(m: seq<bv32>)
    requires EmptyBlock(m)
    ensures Step([0x76fd93d4, 0x3f55edfd, 0x0fe32453, 0xfd95f243], 45, m)
         == [0xfd95f243, 0x22a31f54, 0x3f55edfd, 0x0fe32453]
  {
    Schedule44();
  }

  lemma EmptyStep46(m: seq<bv32>)
    requires EmptyBlock(m)
    ensures Step([0xfd95f243, 0x22a31f54, 0x3f55edfd, 0x0fe32453], 46, m)
         == [0x0fe32453, 0x68d84ea2, 0x22a31f54, 0x3f55edfd]
  {
    Schedule44();
  }

  lemma EmptyStep47(m: seq<bv32>)
    requires EmptyBlock(m)
    ensures Step([0x0fe32453, 0x68d84ea2, 0x22a31f54, 0x3f55edfd], 47, m)
         == [0x3f55edfd, 0xca7d2dbd, 0x68d84ea2, 0x22a31f54]
  {
    Schedule44();
  }

  lemma EmptyStep48(m: seq<bv32>)
    requires EmptyBlock(m)
    ensures Step([0x3f55edfd, 0xca7d2dbd, 0x68d84ea2, 0x22a31f54], 48, m)
         == [0x22a31f54, 0x93aa2577, 0xca7d2dbd, 0x68d84ea2]
  {
    Schedule48();
  }

  lemma EmptyStep49(m: seq<bv32>)
    requires EmptyBlock(m)
    ensures Step([0x22a31f54, 0x93aa2577, 0xca7d2dbd, 0x68d84ea2], 49, m)
         == [0x68d84ea2, 0x1688dc85, 0x93aa2577, 0xca7d2dbd]
  {
    Schedule48();
  }

  lemma EmptyStep50(m: seq<bv32>)
    requires EmptyBlock(m)
    ensures Step([0x68d84ea2, 0x1688dc85, 0x93aa2577, 0xca7d2dbd], 50, m)
         == [0xca7d2dbd, 0xcd85b8cb, 0x1688dc85, 0x93aa2577]
  {
    Schedule48();
  }

  lemma EmptyStep51(m: seq<bv32>)
    requires EmptyBlock(m)
    ensures Step([0xca7d2dbd, 0xcd85b8cb, 0x1688dc85, 0x93aa2577], 51, m)
         == [0x93aa2577, 0x561e0689, 0xcd85b8cb, 0x1688dc85]
  {
    Schedule48();
  }

  lemma EmptyStep52(m: seq<bv32>)
    requires EmptyBlock(m)
    ensures Step([0x93aa2577, 0x561e0689, 0xcd85b8cb, 0x1688dc85], 52, m)
         == [0x1688dc85, 0x5625a114, 0x561e0689, 0xcd85b8cb]
  {
    Schedule52();
  }

  lemma EmptyStep53(m: seq<bv32>)
    requires EmptyBlock(m)
    ensures Step([0x1688dc85, 0x5625a114, 0x561e0689, 0xcd85b8cb], 53, m)
         == [0xcd85b8cb, 0x3450f42b, 0x5625a114, 0x561e0689]
  {
    Schedule52();
  }

  lemma EmptyStep54(m: seq<bv32>)
    requires EmptyBlock(m)
    ensures Step([0xcd85b8cb, 0x3450f42b, 0x5625a114, 0x561e0689], 54, m)
         == [0x561e0689, 0x392ad0d0, 0x3450f42b, 0x5625a114]
  {
    Schedule52();
  }

  lemma EmptyStep55(m: seq<bv32>)
    requires EmptyBlock(m)
    ensures Step([0x561e0689, 0x392ad0d0, 0x3450f42b, 0x5625a114], 55, m)
         == [0x5625a114, 0x1e77fa61, 0x392ad0d0, 0x3450f42b]
  {
    Schedule52();
  }

  lemma EmptyStep56(m: seq<bv32>)
    requires EmptyBlock(m)
    ensures Step([0x5625a114, 0x1e77fa61, 0x392ad0d0, 0x3450f42b], 56, m)
         == [0x3450f42b, 0x474a9c8c, 0x1e77fa61, 0x392ad0d0]
  {
    Schedule56();
  }

  lemma EmptyStep57(m: seq<bv32>)
    requires EmptyBlock(m)
    ensures Step([0x3450f42b, 0x474a9c8c, 0x1e77fa61, 0x392ad0d0], 57, m)
         == [0x392ad0d0, 0xdfce00bc, 0x474a9c8c, 0x1e77fa61]
  {
    Schedule56();
  }

  lemma EmptyStep58(m: seq<bv32>)
    requires EmptyBlock(m)
    ensures Step([0x392ad0d0, 0xdfce00bc, 0x474a9c8c, 0x1e77fa61], 58, m)
         == [0x1e77fa61, 0x36594b14, 0xdfce00bc, 0x474a9c8c]
  {
    Schedule56();
  }

  lemma EmptyStep59(m: seq<bv32>)
    requires EmptyBlock(m)
    ensures Step([0x1e77fa61, 0x36594b14, 0xdfce00bc, 0x474a9c8c], 59, m)
         == [0x474a9c8c, 0x30130182, 0x36594b14, 0xdfce00bc]
  {
    Schedule56();
  }

  lemma EmptyStep60(m: seq<bv32>)
    requires EmptyBlock(m)
    ensures Step([0x474a9c8c, 0x30130182, 0x36594b14, 0xdfce00bc], 60, m)
         == [0xdfce00bc, 0x7246fad3, 0x30130182, 0x36594b14]
  {
    Schedule60();
  }

  lemma EmptyStep61(m: seq<bv32>)
    requires EmptyBlock(m)
    ensures Step([0xdfce00bc, 0x7246fad3, 0x30130182, 0x36594b14], 61, m)
         == [0x36594b14, 0x6e10a476, 0x7246fad3, 0x30130182]
  {
    Schedule60();
  }

  lemma EmptyStep62(m: seq<bv32>)
    requires EmptyBlock(m)
    ensures Step([0x36594b14, 0x6e10a476, 0x7246fad3, 0x30130182], 62, m)
         == [0x30130182, 0xff4ea3eb, 0x6e10a476, 0x7246fad3]
  {
    Schedule60();
  }

  lemma EmptyStep63(m: seq<bv32>)
    requires EmptyBlock(m)
    ensures Step([0x30130182, 0xff4ea3eb, 0x6e10a476, 0x7246fad3], 63, m)
         == [0x7246fad3, 0x14e45506, 0xff4ea3eb, 0x6e10a476]
  {
    Schedule60();
  }

  lemma EmptySteps16(m: seq<bv32>)
    requires EmptyBlock(m)
    ensures Steps(Init, m, 16) == [0xf56c7cf1, 0xd6819c6a, 0x5aa53f75, 0x374943a7]
  {
    EmptyStep0(m);
    assert Steps(Init, m, 1) == [0x10325476, 0xa5202774, 0xefcdab89, 0x98badcfe];
    EmptyStep1(m);
    assert Steps(Init, m, 2) == [0x98badcfe, 0xf59592dd, 0xa5202774, 0xefcdab89];
    EmptyStep2(m);
    assert Steps(Init, m, 3) == [0xefcdab89, 0xe7f06b23, 0xf59592dd, 0xa5202774];
    EmptyStep3(m);
    assert Steps(Init, m, 4) == [0xa5202774, 0x1b163203, 0xe7f06b23, 0xf59592dd];
    EmptyStep4(m);
    assert Steps(Init, m, 5) == [0xf59592dd, 0x32033344, 0x1b163203, 0xe7f06b23];
    EmptyStep5(m);
    assert Steps(Init, m, 6) == [0xe7f06b23, 0x2f35d494, 0x32033344, 0x1b163203];
    EmptyStep6(m);
    assert Steps(Init, m, 7) == [0x1b163203, 0xf5b158db, 0x2f35d494, 0x32033344];
    EmptyStep7(m);
    assert Steps(Init, m, 8) == [0x32033344, 0x9bc13ce9, 0xf5b158db, 0x2f35d494];
    EmptyStep8(m);
    assert Steps(Init, m, 9) == [0x2f35d494, 0x3893b991, 0x9bc13ce9, 0xf5b158db];
    EmptyStep9(m);
    assert Steps(Init, m, 10) == [0xf5b158db, 0xfce4a312, 0x3893b991, 0x9bc13ce9];
    EmptyStep10(m);
    assert Steps(Init, m, 11) == [0x9bc13ce9, 0xe1ef0576, 0xfce4a312, 0x3893b991];
    EmptyStep11(m);
    assert Steps(Init, m, 12) == [0x3893b991, 0x70768a29, 0xe1ef0576, 0xfce4a312];
    EmptyStep12(m);
    assert Steps(Init, m, 13) == [0xfce4a312, 0xf56c7cf1, 0x70768a29, 0xe1ef0576];
    EmptyStep13(m);
    assert Steps(Init, m, 14) == [0xe1ef0576, 0x374943a7, 0xf56c7cf1, 0x70768a29];
    EmptyStep14(m);
    assert Steps(Init, m, 15) == [0x70768a29, 0x5aa53f75, 0x374943a7, 0xf56c7cf1];
    EmptyStep15(m);
    assert Steps(Init, m, 16) == [0xf56c7cf1, 0xd6819c6a, 0x5aa53f75, 0x374943a7];
  }

  lemma EmptySteps32(m: seq<bv32>)
    requires EmptyBlock(m)
    ensures Steps(Init, m, 32) == [0x13707036, 0xa2205f1f, 0x1c31c384, 0xae7813db]
  {
    EmptySteps16(m);
    EmptyStep16(m);
    assert Steps(Init, m, 17) == [0x374943a7, 0x1c7d7513, 0xd6819c6a, 0x5aa53f75];
    EmptyStep17(m);
    assert Steps(Init, m, 18) == [0x5aa53f75, 0x7bd57a3a, 0x1c7d7513, 0xd6819c6a];
    EmptyStep18(m);
    assert Steps(Init, m, 19) == [0xd6819c6a, 0xc095f13a, 0x7bd57a3a, 0x1c7d7513];
    EmptyStep19(m);
    assert Steps(Init, m, 20) == [0x1c7d7513, 0xbd782e17, 0xc095f13a, 0x7bd57a3a];
    EmptyStep20(m);
    assert Steps(Init, m, 21) == [0x7bd57a3a, 0x3d1e3e6c, 0xbd782e17, 0xc095f13a];
    EmptyStep21(m);
    assert Steps(Init, m, 22) == [0xc095f13a, 0x68b7b3e3, 0x3d1e3e6c, 0xbd782e17];
    EmptyStep22(m);
    assert Steps(Init, m, 23) == [0xbd782e17, 0xeb41643e, 0x68b7b3e3, 0x3d1e3e6c];
    EmptyStep23(m);
    assert Steps(Init, m, 24) == [0x3d1e3e6c, 0xe422531a, 0xeb41643e, 0x68b7b3e3];
    EmptyStep24(m);
    assert Steps(Init, m, 25) == [0x68b7b3e3, 0x306ec122, 0xe422531a, 0xeb41643e];
    EmptyStep25(m);
    assert Steps(Init, m, 26) == [0xeb41643e, 0xd28c77c2, 0x306ec122, 0xe422531a];
    EmptyStep26(m);
    assert Steps(Init, m, 27) == [0xe422531a, 0xa3c663da, 0xd28c77c2, 0x306ec122];
    EmptyStep27(m);
    assert Steps(Init, m, 28) == [0x306ec122, 0xa0572807, 0xa3c663da, 0xd28c77c2];
    EmptyStep28(m);
    assert Steps(Init, m, 29) == [0xd28c77c2, 0x13707036, 0xa0572807, 0xa3c663da];
    EmptyStep29(m);
    assert Steps(Init, m, 30) == [0xa3c663da, 0xae7813db, 0x13707036, 0xa0572807];
    EmptyStep30(m);
    assert Steps(Init, m, 31) == [0xa0572807, 0x1c31c384, 0xae7813db, 0x13707036];
    EmptyStep31(m);
    assert Steps(Init, m, 32) == [0x13707036, 0xa2205f1f, 0x1c31c384, 0xae7813db];
  }

  lemma EmptySteps48(m: seq<bv32>)
    requires EmptyBlock(m)
    ensures Steps(Init, m, 48) == [0x3f55edfd, 0xca7d2dbd, 0x68d84ea2, 0x22a31f54]
  {
    EmptySteps32(m);
    EmptyStep32(m);
    assert Steps(Init, m, 33) == [0xae7813db, 0xdf63eaa1, 0xa2205f1f, 0x1c31c384];
    EmptyStep33(m);
    assert Steps(Init, m, 34) == [0x1c31c384, 0xc3689f5b, 0xdf63eaa1, 0xa2205f1f];
    EmptyStep34(m);
    assert Steps(Init, m, 35) == [0xa2205f1f, 0x12f3e755, 0xc3689f5b, 0xdf63eaa1];
    EmptyStep35(m);
    assert Steps(Init, m, 36) == [0xdf63eaa1, 0x004b6669, 0x12f3e755, 0xc3689f5b];
    EmptyStep36(m);
    assert Steps(Init, m, 37) == [0xc3689f5b, 0x5f7a9b2e, 0x004b6669, 0x12f3e755];
    EmptyStep37(m);
    assert Steps(Init, m, 38) == [0x12f3e755, 0xabc34e16, 0x5f7a9b2e, 0x004b6669];
    EmptyStep38(m);
    assert Steps(Init, m, 39) == [0x004b6669, 0x91ca4cb7, 0xabc34e16, 0x5f7a9b2e];
    EmptyStep39(m);
    assert Steps(Init, m, 40) == [0x5f7a9b2e, 0xc5dc8c15, 0x91ca4cb7, 0xabc34e16];
    EmptyStep40(m);
    assert Steps(Init, m, 41) == [0xabc34e16, 0x4497169d, 0xc5dc8c15, 0x91ca4cb7];
    EmptyStep41(m);
    assert Steps(Init, m, 42) == [0x91ca4cb7, 0x76fd93d4, 0x4497169d, 0xc5dc8c15];
    EmptyStep42(m);
    assert Steps(Init, m, 43) == [0xc5dc8c15, 0xfd95f243, 0x76fd93d4, 0x4497169d];
    EmptyStep43(m);
    assert Steps(Init, m, 44) == [0x4497169d, 0x0fe32453, 0xfd95f243, 0x76fd93d4];
    EmptyStep44(m);
    assert Steps(Init, m, 45) == [0x76fd93d4, 0x3f55edfd, 0x0fe32453, 0xfd95f243];
    EmptyStep45(m);
    assert Steps(Init, m, 46) == [0xfd95f243, 0x22a31f54, 0x3f55edfd, 0x0fe32453];
    EmptyStep46(m);
    assert Steps(Init, m, 47) == [0x0fe32453, 0x68d84ea2, 0x22a31f54, 0x3f55edfd];
    EmptyStep47(m);
    assert Steps(Init, m, 48) == [0x3f55edfd, 0xca7d2dbd, 0x68d84ea2, 0x22a31f54];
  }

  lemma EmptySteps64(m: seq<bv32>)
    requires EmptyBlock(m)
    ensures Steps(Init, m, 64) == [0x7246fad3, 0x14e45506, 0xff4ea3eb, 0x6e10a476]
  {
    EmptySteps48(m);
    EmptyStep48(m);
    assert Steps(Init, m, 49) == [0x22a31f54, 0x93aa2577, 0xca7d2dbd, 0x68d84ea2];
    EmptyStep49(m);
    assert Steps(Init, m, 50) == [0x68d84ea2, 0x1688dc85, 0x93aa2577, 0xca7d2dbd];
    EmptyStep50(m);
    assert Steps(Init, m, 51) == [0xca7d2dbd, 0xcd85b8cb, 0x1688dc85, 0x93aa2577];
    EmptyStep51(m);
    assert Steps(Init, m, 52) == [0x93aa2577, 0x561e0689, 0xcd85b8cb, 0x1688dc85];
    EmptyStep52(m);
    assert Steps(Init, m, 53) == [0x1688dc85, 0x5625a114, 0x561e0689, 0xcd85b8cb];
    EmptyStep53(m);
    assert Steps(Init, m, 54) == [0xcd85b8cb, 0x3450f42b, 0x5625a114, 0x561e0689];
    EmptyStep54(m);
    assert Steps(Init, m, 55) == [0x561e0689, 0x392ad0d0, 0x3450f42b, 0x5625a114];
    EmptyStep55(m);
    assert Steps(Init, m, 56) == [0x5625a114, 0x1e77fa61, 0x392ad0d0, 0x3450f42b];
    EmptyStep56(m);
    assert Steps(Init, m, 57) == [0x3450f42b, 0x474a9c8c, 0x1e77fa61, 0x392ad0d0];
    EmptyStep57(m);
    assert Steps(Init, m, 58) == [0x392ad0d0, 0xdfce00bc, 0x474a9c8c, 0x1e77fa61];
    EmptyStep58(m);
    assert Steps(Init, m, 59) == [0x1e77fa61, 0x36594b14, 0xdfce00bc, 0x474a9c8c];
    EmptyStep59(m);
    assert Steps(Init, m, 60) == [0x474a9c8c, 0x30130182, 0x36594b14, 0xdfce00bc];
    EmptyStep60(m);
    assert Steps(Init, m, 61) == [0xdfce00bc, 0x7246fad3, 0x30130182, 0x36594b14];
    EmptyStep61(m);
    assert Steps(Init, m, 62) == [0x36594b14, 0x6e10a476, 0x7246fad3, 0x30130182];
    EmptyStep62(m);
    assert Steps(Init, m, 63) == [0x30130182, 0xff4ea3eb, 0x6e10a476, 0x7246fad3];
    EmptyStep63(m);
    assert Steps(Init, m, 64) == [0x7246fad3, 0x14e45506, 0xff4ea3eb, 0x6e10a476];
  }

  lemma EmptyPadBytes0()
    ensures var buf := Padded([]);
      |buf| == 64 && buf[0] == 0x80 && buf[1] == 0x00 && buf[2] == 0x00 && buf[3] == 0x00
  {
  }

  lemma EmptyWord0(buf: seq<Byte>)
    requires buf == Padded([])
    ensures |buf| == 64 && WordAt(buf, 0) == 0x00000080
  {
    EmptyPadBytes0();
    WordAtValue(buf, 0, 0x00000080);
  }

  lemma EmptyPadBytes1()
    ensures var buf := Padded([]);
      |buf| == 64 && buf[4] == 0x00 && buf[5] == 0x00 && buf[6] == 0x00 && buf[7] == 0x00
  {
  }

  lemma EmptyWord1(buf: seq<Byte>)
    requires buf == Padded([])
    ensures |buf| == 64 && WordAt(buf, 4) == 0x00000000
  {
    EmptyPadBytes1();
    WordAtValue(buf, 4, 0x00000000);
  }

  lemma EmptyPadBytes2()
    ensures var buf := Padded([]);
      |buf| == 64 && buf[8] == 0x00 && buf[9] == 0x00 && buf[10] == 0x00 && buf[11] == 0x00
  {
  }

  lemma EmptyWord2(buf: seq<Byte>)
    requires buf == Padded([])
    ensures |buf| == 64 && WordAt(buf, 8) == 0x00000000
  {
    EmptyPadBytes2();
    WordAtValue(buf, 8, 0x00000000);
  }

  lemma EmptyPadBytes3()
    ensures var buf := Padded([]);
      |buf| == 64 && buf[12] == 0x00 && buf[13] == 0x00 && buf[14] == 0x00 && buf[15] == 0x00
  {
  }

  lemma EmptyWord3(buf: seq<Byte>)
    requires buf == Padded([])
    ensures |buf| == 64 && WordAt(buf, 12) == 0x00000000
  {
    EmptyPadBytes3();
    WordAtValue(buf, 12, 0x00000000);
  }

  lemma EmptyPadBytes4()
    ensures var buf := Padded([]);
      |buf| == 64 && buf[16] == 0x00 && buf[17] == 0x00 && buf[18] == 0x00 && buf[19] == 0x00
  {
  }

  lemma EmptyWord4(buf: seq<Byte>)
    requires buf == Padded([])
    ensures |buf| == 64 && WordAt(buf, 16) == 0x00000000
  {
    EmptyPadBytes4();
    WordAtValue(buf, 16, 0x00000000);
  }

  lemma EmptyPadBytes5()
    ensures var buf := Padded([]);
      |buf| == 64 && buf[20] == 0x00 && buf[21] == 0x00 && buf[22] == 0x00 && buf[23] == 0x00
  {
  }

  lemma EmptyWord5(buf: seq<Byte>)
    requires buf == Padded([])
    ensures |buf| == 64 && WordAt(buf, 20) == 0x00000000
  {
    EmptyPadBytes5();
    WordAtValue(buf, 20, 0x00000000);
  }

  lemma EmptyPadBytes6()
    ensures var buf := Padded([]);
      |buf| == 64 && buf[24] == 0x00 && buf[25] == 0x00 && buf[26] == 0x00 && buf[27] == 0x00
  {
  }

  lemma EmptyWord6(buf: seq<Byte>)
    requires buf == Padded([])
    ensures |buf| == 64 && WordAt(buf, 24) == 0x00000000
  {
    EmptyPadBytes6();
    WordAtValue(buf, 24, 0x00000000);
  }

  lemma EmptyPadBytes7()
    ensures var buf := Padded([]);
      |buf| == 64 && buf[28] == 0x00 && buf[29] == 0x00 && buf[30] == 0x00 && buf[31] == 0x00
  {
  }

  lemma EmptyWord7(buf: seq<Byte>)
    requires buf == Padded([])
    ensures |buf| == 64 && WordAt(buf, 28) == 0x00000000
  {
    EmptyPadBytes7();
    WordAtValue(buf, 28, 0x00000000);
  }

  lemma EmptyPadBytes8()
    ensures var buf := Padded([]);
      |buf| == 64 && buf[32] == 0x00 && buf[33] == 0x00 && buf[34] == 0x00 && buf[35] == 0x00
  {
  }

  lemma EmptyWord8(buf: seq<Byte>)
    requires buf == Padded([])
    ensures |buf| == 64 && WordAt(buf, 32) == 0x00000000
  {
    EmptyPadBytes8();
    WordAtValue(buf, 32, 0x00000000);
  }

  lemma EmptyPadBytes9()
    ensures var buf := Padded([]);
      |buf| == 64 && buf[36] == 0x00 && buf[37] == 0x00 && buf[38] == 0x00 && buf[39] == 0x00
  {
  }

  lemma EmptyWord9(buf: seq<Byte>)
    requires buf == Padded([])
    ensures |buf| == 64 && WordAt(buf, 36) == 0x00000000
  {
    EmptyPadBytes9();
    WordAtValue(buf, 36, 0x00000000);
  }

  lemma EmptyPadBytes10()
    ensures var buf := Padded([]);
      |buf| == 64 && buf[40] == 0x00 && buf[41] == 0x00 && buf[42] == 0x00 && buf[43] == 0x00
  {
  }

  lemma EmptyWord10(buf: seq<Byte>)
    requires buf == Padded([])
    ensures |buf| == 64 && WordAt(buf, 40) == 0x00000000
  {
    EmptyPadBytes10();
    WordAtValue(buf, 40, 0x00000000);
  }

  lemma EmptyPadBytes11()
    ensures var buf := Padded([]);
      |buf| == 64 && buf[44] == 0x00 && buf[45] == 0x00 && buf[46] == 0x00 && buf[47] == 0x00
  {
  }

  lemma EmptyWord11(buf: seq<Byte>)
    requires buf == Padded([])
    ensures |buf| == 64 && WordAt(buf, 44) == 0x00000000
  {
    EmptyPadBytes11();
    WordAtValue(buf, 44, 0x00000000);
  }

  lemma EmptyPadBytes12()
    ensures var buf := Padded([]);
      |buf| == 64 && buf[48] == 0x00 && buf[49] == 0x00 && buf[50] == 0x00 && buf[51] == 0x00
  {
  }

  lemma EmptyWord12(buf: seq<Byte>)
    requires buf == Padded([])
    ensures |buf| == 64 && WordAt(buf, 48) == 0x00000000
  {
    EmptyPadBytes12();
    WordAtValue(buf, 48, 0x00000000);
  }

  lemma EmptyPadBytes13()
    ensures var buf := Padded([]);
      |buf| == 64 && buf[52] == 0x00 && buf[53] == 0x00 && buf[54] == 0x00 && buf[55] == 0x00
  {
  }

  lemma EmptyWord13(buf: seq<Byte>)
    requires buf == Padded([])
    ensures |buf| == 64 && WordAt(buf, 52) == 0x00000000
  {
    EmptyPadBytes13();
    WordAtValue(buf, 52, 0x00000000);
  }

  lemma EmptyPadBytes14()
    ensures var buf := Padded([]);
      |buf| == 64 && buf[56] == 0x00 && buf[57] == 0x00 && buf[58] == 0x00 && buf[59] == 0x00
  {
  }

  lemma EmptyWord14(buf: seq<Byte>)
    requires buf == Padded([])
    ensures |buf| == 64 && WordAt(buf, 56) == 0x00000000
  {
    EmptyPadBytes14();
    WordAtValue(buf, 56, 0x00000000);
  }

  lemma EmptyPadBytes15()
    ensures var buf := Padded([]);
      |buf| == 64 && buf[60] == 0x00 && buf[61] == 0x00 && buf[62] == 0x00 && buf[63] == 0x00
  {
  }

  lemma EmptyWord15(buf: seq<Byte>)
    requires buf == Padded([])
    ensures |buf| == 64 && WordAt(buf, 60) == 0x00000000
  {
    EmptyPadBytes15();
    WordAtValue(buf, 60, 0x00000000);
  }

  lemma EmptyBlockWords()
    ensures EmptyBlock(BlockWords(Padded([]), 0))
  {
    EmptyWord0(Padded([]));
    EmptyWord1(Padded([]));
    EmptyWord2(Padded([]));
    EmptyWord3(Padded([]));
    EmptyWord4(Padded([]));
    EmptyWord5(Padded([]));
    EmptyWord6(Padded([]));
    EmptyWord7(Padded([]));
    EmptyWord8(Padded([]));
    EmptyWord9(Padded([]));
    EmptyWord10(Padded([]));
    EmptyWord11(Padded([]));
    EmptyWord12(Padded([]));
    EmptyWord13(Padded([]));
    EmptyWord14(Padded([]));
    EmptyWord15(Padded([]));
  }

  lemma EmptyDigest()
    ensures Digest([]) == [0xd98c1dd4, 0x04b2008f, 0x980980e9, 0x7e42f8ec]
  {
    var buf := Padded([]);
    PaddedLength([]);
    assert |buf| / 64 == 1;
    EmptyBlockWords();
    EmptySteps64(BlockWords(buf, 0));
    assert AfterBlocks(buf, 1) == Compress(Init, BlockWords(buf, 0));
  }

  lemma EmptyHex0(w: bv32)
    requires w == 0xd98c1dd4
    ensures HexOf(WordBytes(w)) == "d41d8cd9"
  {
    EmptyBytes0();
    EmptyHexBytes0();
  }

  lemma EmptyBytes0()
    ensures WordBytes(0xd98c1dd4) == [0xd4, 0x1d, 0x8c, 0xd9]
  {
  }

  lemma EmptyHexBytes0()
    ensures HexOf([0xd4, 0x1d, 0x8c, 0xd9]) == "d41d8cd9"
  {
    HexOfFour(0xd4, 0x1d, 0x8c, 0xd9);
    assert ByteHex(0xd4) == "d4";
    assert ByteHex(0x1d) == "1d";
    assert ByteHex(0x8c) == "8c";
    assert ByteHex(0xd9) == "d9";
  }

  lemma EmptyHex1(w: bv32)
    requires w == 0x04b2008f
    ensures HexOf(WordBytes(w)) == "8f00b204"
  {
    EmptyBytes1();
    EmptyHexBytes1();
  }

  lemma EmptyBytes1()
    ensures WordBytes(0x04b2008f) == [0x8f, 0x00, 0xb2, 0x04]
  {
  }

  lemma EmptyHexBytes1()
    ensures HexOf([0x8f, 0x00, 0xb2, 0x04]) == "8f00b204"
  {
    HexOfFour(0x8f, 0x00, 0xb2, 0x04);
    assert ByteHex(0x8f) == "8f";
    assert ByteHex(0x00) == "00";
    assert ByteHex(0xb2) == "b2";
    assert ByteHex(0x04) == "04";
  }

  lemma EmptyHex2(w: bv32)
    requires w == 0x980980e9
    ensures HexOf(WordBytes(w)) == "e9800998"
  {
    EmptyBytes2();
    EmptyHexBytes2();
  }

  lemma EmptyBytes2()
    ensures WordBytes(0x980980e9) == [0xe9, 0x80, 0x09, 0x98]
  {
  }

  lemma EmptyHexBytes2()
    ensures HexOf([0xe9, 0x80, 0x09, 0x98]) == "e9800998"
  {
    HexOfFour(0xe9, 0x80, 0x09, 0x98);
    assert ByteHex(0xe9) == "e9";
    assert ByteHex(0x80) == "80";
    assert ByteHex(0x09) == "09";
    assert ByteHex(0x98) == "98";
  }

  lemma EmptyHex3(w: bv32)
    requires w == 0x7e42f8ec
    ensures HexOf(WordBytes(w)) == "ecf8427e"
  {
    EmptyBytes3();
    EmptyHexBytes3();
  }

  lemma EmptyBytes3()
    ensures WordBytes(0x7e42f8ec) == [0xec, 0xf8, 0x42, 0x7e]
  {
  }

  lemma EmptyHexBytes3()
    ensures HexOf([0xec, 0xf8, 0x42, 0x7e]) == "ecf8427e"
  {
    HexOfFour(0xec, 0xf8, 0x42, 0x7e);
    assert ByteHex(0xec) == "ec";
    assert ByteHex(0xf8) == "f8";
    assert ByteHex(0x42) == "42";
    assert ByteHex(0x7e) == "7e";
  }

  lemma EmptyWordsHex(h: Words)
    requires h == [0xd98c1dd4, 0x04b2008f, 0x980980e9, 0x7e42f8ec]
    ensures HexOf(WordBytes(h[0])) + HexOf(WordBytes(h[1])) + HexOf(WordBytes(h[2])) + HexOf(WordBytes(h[3]))
      == "d41d8cd9" + "8f00b204" + "e9800998" + "ecf8427e"
  {
    EmptyHex0(h[0]);
    EmptyHex1(h[1]);
    EmptyHex2(h[2]);
    EmptyHex3(h[3]);
  }

  lemma EmptyHexConcat()
    ensures "d41d8cd9" + "8f00b204" + "e9800998" + "ecf8427e" == "d41d8cd98f00b204e9800998ecf8427e"
  {
  }

  /** `md5Hex("")` is d41d8cd98f00b204e9800998ecf8427e. */
  lemma EmptyVector()
    ensures Md5HexOf([]) == "d41d8cd98f00b204e9800998ecf8427e"
  {
    EmptyDigest();
    EmptyWordsHex([0xd98c1dd4, 0x04b2008f, 0x980980e9, 0x7e42f8ec]);
    EmptyHexConcat();
    Md5HexFromWords([], [0xd98c1dd4, 0x04b2008f, 0x980980e9, 0x7e42f8ec], "d41d8cd98f00b204e9800998ecf8427e");
  }

  /** The 16 words of the one block of the padded input "abc". */
  predicate AbcBlock(m: seq<bv32>)
  {
    |m| == 16
    && m[0] == 0x80636261 && m[1] == 0x00000000 && m[2] == 0x00000000 && m[3] == 0x00000000
    && m[4] == 0x00000000 && m[5] == 0x00000000 && m[6] == 0x00000000 && m[7] == 0x00000000
    && m[8] == 0x00000000 && m[9] == 0x00000000 && m[10] == 0x00000000 && m[11] == 0x00000000
    && m[12] == 0x00000000 && m[13] == 0x00000000 && m[14] == 0x00000018 && m[15] == 0x00000000
  }

  lemma AbcStep0(m: seq<bv32>)
    requires AbcBlock(m)
    ensures Step([0x67452301, 0xefcdab89, 0x98badcfe, 0x10325476], 0, m)
         == [0x10325476, 0xd6d117b4, 0xefcdab89, 0x98badcfe]
  {
    Schedule0();
  }

  lemma AbcStep1(m: seq<bv32>)
    requires AbcBlock(m)
    ensures Step([0x10325476, 0xd6d117b4, 0xefcdab89, 0x98badcfe], 1, m)
         == [0x98badcfe, 0x344a8432, 0xd6d117b4, 0xefcdab89]
  {
    Schedule0();
  }

  lemma AbcStep2(m: seq<bv32>)
    requires AbcBlock(m)
    ensures Step([0x98badcfe, 0x344a8432, 0xd6d117b4, 0xefcdab89], 2, m)
         == [0xefcdab89, 0x2f6fbd72, 0x344a8432, 0xd6d117b4]
  {
    Schedule0();
  }

  lemma AbcStep3(m: seq<bv32>)
    requires AbcBlock(m)
    ensures Step([0xefcdab89, 0x2f6fbd72, 0x344a8432, 0xd6d117b4], 3, m)
         == [0xd6d117b4, 0x7ad956f2, 0x2f6fbd72, 0x344a8432]
  {
    Schedule0();
  }

  lemma AbcStep4(m: seq<bv32>)
    requires AbcBlock(m)
    ensures Step([0xd6d117b4, 0x7ad956f2, 0x2f6fbd72, 0x344a8432], 4, m)
         == [0x344a8432, 0xc73741ef, 0x7ad956f2, 0x2f6fbd72]
  {
    Schedule4();
  }

  lemma AbcStep5(m: seq<bv32>)
    requires AbcBlock(m)
    ensures Step([0x344a8432, 0xc73741ef, 0x7ad956f2, 0x2f6fbd72], 5, m)
         == [0x2f6fbd72, 0x8bac3051, 0xc73741ef, 0x7ad956f2]
  {
    Schedule4();
  }

  lemma AbcStep6(m: seq<bv32>)
    requires AbcBlock(m)
    ensures Step([0x2f6fbd72, 0x8bac3051, 0xc73741ef, 0x7ad956f2], 6, m)
         == [0x7ad956f2, 0x207dc67b, 0x8bac3051, 0xc73741ef]
  {
    Schedule4();
  }

  lemma AbcStep7(m: seq<bv32>)
    requires AbcBlock(m)
    ensures Step([0x7ad956f2, 0x207dc67b, 0x8bac3051, 0xc73741ef], 7, m)
         == [0xc73741ef, 0x928d99f6, 0x207dc67b, 0x8bac3051]
  {
    Schedule4();
  }

  lemma AbcStep8(m: seq<bv32>)
    requires AbcBlock(m)
    ensures Step([0xc73741ef, 0x928d99f6, 0x207dc67b, 0x8bac3051], 8, m)
         == [0x8bac3051, 0x854b3712, 0x928d99f6, 0x207dc67b]
  {
    Schedule8();
  }

  lemma AbcStep9(m: seq<bv32>)
    requires AbcBlock(m)
    ensures Step([0x8bac3051, 0x854b3712, 0x928d99f6, 0x207dc67b], 9, m)
         == [0x207dc67b, 0x74e2f284, 0x854b3712, 0x928d99f6]
  {
    Schedule8();
  }

  lemma AbcStep10(m: seq<bv32>)
    requires AbcBlock(m)
    ensures Step([0x207dc67b, 0x74e2f284, 0x854b3712, 0x928d99f6], 10, m)
         == [0x928d99f6, 0x3020401c, 0x74e2f284, 0x854b3712]
  {
    Schedule8();
  }

  lemma AbcStep11(m: seq<bv32>)
    requires AbcBlock(m)
    ensures Step([0x928d99f6, 0x3020401c, 0x74e2f284, 0x854b3712], 11, m)
         == [0x854b3712, 0x5ed49596, 0x3020401c, 0x74e2f284]
  {
    Schedule8();
  }

  lemma AbcStep12(m: seq<bv32>)
    requires AbcBlock(m)
    ensures Step([0x854b3712, 0x5ed49596, 0x3020401c, 0x74e2f284], 12, m)
         == [0x74e2f284, 0xdda9b9a6, 0x5ed49596, 0x3020401c]
  {
    Schedule12();
  }

  lemma AbcStep13(m: seq<bv32>)
    requires AbcBlock(m)
    ensures Step([0x74e2f284, 0xdda9b9a6, 0x5ed49596, 0x3020401c], 13, m)
         == [0x3020401c, 0xa1051895, 0xdda9b9a6, 0x5ed49596]
  {
    Schedule12();
  }

  lemma AbcStep14(m: seq<bv32>)
    requires AbcBlock(m)
    ensures Step([0x3020401c, 0xa1051895, 0xdda9b9a6, 0x5ed49596], 14, m)
         == [0x5ed49596, 0xe396856b, 0xa1051895, 0xdda9b9a6]
  {
    Schedule12();
  }

  lemma AbcStep15(m: seq<bv32>)
    requires AbcBlock(m)
    ensures Step([0x5ed49596, 0xe396856b, 0xa1051895, 0xdda9b9a6], 15, m)
         == [0xdda9b9a6, 0x72aff2e0, 0xe396856b, 0xa1051895]
  {
    Schedule12();
  }

  lemma AbcStep16(m: seq<bv32>)
    requires AbcBlock(m)
    ensures Step([0xdda9b9a6, 0x72aff2e0, 0xe396856b, 0xa1051895], 16, m)
         == [0xa1051895, 0x3e9e9126, 0x72aff2e0, 0xe396856b]
  {
    Schedule16();
  }

  lemma AbcStep17(m: seq<bv32>)
    requires AbcBlock(m)
    ensures Step([0xa1051895, 0x3e9e9126, 0x72aff2e0, 0xe396856b], 17, m)
         == [0xe396856b, 0x4a1d804e, 0x3e9e9126, 0x72aff2e0]
  {
    Schedule16();
  }

  lemma AbcStep18(m: seq<bv32>)
    requires AbcBlock(m)
    ensures Step([0xe396856b, 0x4a1d804e, 0x3e9e9126, 0x72aff2e0], 18, m)
         == [0x72aff2e0, 0xe25e1652, 0x4a1d804e, 0x3e9e9126]
  {
    Schedule16();
  }

  lemma AbcStep19(m: seq<bv32>)
    requires AbcBlock(m)
    ensures Step([0x72aff2e0, 0xe25e1652, 0x4a1d804e, 0x3e9e9126], 19, m)
         == [0x3e9e9126, 0xb5b204e4, 0xe25e1652, 0x4a1d804e]
  {
    Schedule16();
  }

  lemma AbcStep20(m: seq<bv32>)
    requires AbcBlock(m)
    ensures Step([0x3e9e9126, 0xb5b204e4, 0xe25e1652, 0x4a1d804e], 20, m)
         == [0x4a1d804e, 0x59a8ffda, 0xb5b204e4, 0xe25e1652]
  {
    Schedule20();
  }

  lemma AbcStep21(m: seq<bv32>)
    requires AbcBlock(m)
    ensures Step([0x4a1d804e, 0x59a8ffda, 0xb5b204e4, 0xe25e1652], 21, m)
         == [0xe25e1652, 0x6d002f1e, 0x59a8ffda, 0xb5b204e4]
  {
    Schedule20();
  }

  lemma AbcStep22(m: seq<bv32>)
    requires AbcBlock(m)
    ensures Step([0xe25e1652, 0x6d002f1e, 0x59a8ffda, 0xb5b204e4], 22, m)
         == [0xb5b204e4, 0xabfc7920, 0x6d002f1e, 0x59a8ffda]
  {
    Schedule20();
  }

  lemma AbcStep23(m: seq<bv32>)
    requires AbcBlock(m)
    ensures Step([0xb5b204e4, 0xabfc7920, 0x6d002f1e, 0x59a8ffda], 23, m)
         == [0x59a8ffda, 0x47092c07, 0xabfc7920, 0x6d002f1e]
  {
    Schedule20();
  }

  lemma AbcStep24(m: seq<bv32>)
    requires AbcBlock(m)
    ensures Step([0x59a8ffda, 0x47092c07, 0xabfc7920, 0x6d002f1e], 24, m)
         == [0x6d002f1e, 0xb7f268cf, 0x47092c07, 0xabfc7920]
  {
    Schedule24();
  }

  lemma AbcStep25(m: seq<bv32>)
    requires AbcBlock(m)
    ensures Step([0x6d002f1e, 0xb7f268cf, 0x47092c07, 0xabfc7920], 25, m)
         == [0xabfc7920, 0x09388eff, 0xb7f268cf, 0x47092c07]
  {
    Schedule24();
  }

  lemma AbcStep26(m: seq<bv32>)
    requires AbcBlock(m)
    ensures Step([0xabfc7920, 0x09388eff, 0xb7f268cf, 0x47092c07], 26, m)
         == [0x47092c07, 0xfe1623b1, 0x09388eff, 0xb7f268cf]
  {
    Schedule24();
  }

  lemma AbcStep27(m: seq<bv32>)
    requires AbcBlock(m)
    ensures Step([0x47092c07, 0xfe1623b1, 0x09388eff, 0xb7f268cf], 27, m)
         == [0xb7f268cf, 0x786acb8f, 0xfe1623b1, 0x09388eff]
  {
    Schedule24();
  }

  lemma AbcStep28(m: seq<bv32>)
    requires AbcBlock(m)
    ensures Step([0xb7f268cf, 0x786acb8f, 0xfe1623b1, 0x09388eff], 28, m)
         == [0x09388eff, 0x790a77fb, 0x786acb8f, 0xfe1623b1]
  {
    Schedule28();
  }

  lemma AbcStep29(m: seq<bv32>)
    requires AbcBlock(m)
    ensures Step([0x09388eff, 0x790a77fb, 0x786acb8f, 0xfe1623b1], 29, m)
         == [0xfe1623b1, 0x9f47e4f8, 0x790a77fb, 0x786acb8f]
  {
    Schedule28();
  }

  lemma AbcStep30(m: seq<bv32>)
    requires AbcBlock(m)
    ensures Step([0xfe1623b1, 0x9f47e4f8, 0x790a77fb, 0x786acb8f], 30, m)
         == [0x786acb8f, 0xa62884aa, 0x9f47e4f8, 0x790a77fb]
  {
    Schedule28();
  }

  lemma AbcStep31(m: seq<bv32>)
    requires AbcBlock(m)
    ensures Step([0x786acb8f, 0xa62884aa, 0x9f47e4f8, 0x790a77fb], 31, m)
         == [0x790a77fb, 0x726342d3, 0xa62884aa, 0x9f47e4f8]
  {
    Schedule28();
  }

  lemma AbcStep32(m: seq<bv32>)
    requires AbcBlock(m)
    ensures Step([0x790a77fb, 0x726342d3, 0xa62884aa, 0x9f47e4f8], 32, m)
         == [0x9f47e4f8, 0xb3707ebf, 0x726342d3, 0xa62884aa]
  {
    Schedule32();
  }

  lemma AbcStep33(m: seq<bv32>)
    requires AbcBlock(m)
    ensures Step([0x9f47e4f8, 0xb3707ebf, 0x726342d3, 0xa62884aa], 33, m)
         == [0xa62884aa, 0x60127b2e, 0xb3707ebf, 0x726342d3]
  {
    Schedule32();
  }

  lemma AbcStep34(m: seq<bv32>)
    requires AbcBlock(m)
    ensures Step([0xa62884aa, 0x60127b2e, 0xb3707ebf, 0x726342d3], 34, m)
         == [0x726342d3, 0x8d212ff5, 0x60127b2e, 0xb3707ebf]
  {
    Schedule32();
  }

  lemma AbcStep35(m: seq<bv32>)
    requires AbcBlock(m)
    ensures Step([0x726342d3, 0x8d212ff5, 0x60127b2e, 0xb3707ebf], 35, m)
         == [0xb3707ebf, 0x3b0875c7, 0x8d212ff5, 0x60127b2e]
  {
    Schedule32();
  }

  lemma AbcStep36(m: seq<bv32>)
    requires AbcBlock(m)
    ensures Step([0xb3707ebf, 0x3b0875c7, 0x8d212ff5, 0x60127b2e], 36, m)
         == [0x60127b2e, 0x21b117b9, 0x3b0875c7, 0x8d212ff5]
  {
    Schedule36();
  }

  lemma AbcStep37(m: seq<bv32>)
    requires AbcBlock(m)
    ensures Step([0x60127b2e, 0x21b117b9, 0x3b0875c7, 0x8d212ff5], 37, m)
         == [0x8d212ff5, 0x6e7429d5, 0x21b117b9, 0x3b0875c7]
  {
    Schedule36();
  }

  lemma AbcStep38(m: seq<bv32>)
    requires AbcBlock(m)
    ensures Step([0x8d212ff5, 0x6e7429d5, 0x21b117b9, 0x3b0875c7], 38, m)
         == [0x3b0875c7, 0x3575227e, 0x6e7429d5, 0x21b117b9]
  {
    Schedule36();
  }

  lemma AbcStep39(m: seq<bv32>)
    requires AbcBlock(m)
    ensures Step([0x3b0875c7, 0x3575227e, 0x6e7429d5, 0x21b117b9], 39, m)
         == [0x21b117b9, 0x5a2f5ea5, 0x3575227e, 0x6e7429d5]
  {
    Schedule36();
  }

  lemma AbcStep40(m: seq<bv32>)
    requires AbcBlock(m)
    ensures Step([0x21b117b9, 0x5a2f5ea5, 0x3575227e, 0x6e7429d5], 40, m)
         == [0x6e7429d5, 0x11de1779, 0x5a2f5ea5, 0x3575227e]
  {
    Schedule40();
  }

  lemma AbcStep41(m: seq<bv32>)
    requires AbcBlock(m)
    ensures Step([0x6e7429d5, 0x11de1779, 0x5a2f5ea5, 0x3575227e], 41, m)
         == [0x3575227e, 0xfadcaa38, 0x11de1779, 0x5a2f5ea5]
  {
    Schedule40();
  }

  lemma AbcStep42(m: seq<bv32>)
    requires AbcBlock(m)
    ensures Step([0x3575227e, 0xfadcaa38, 0x11de1779, 0x5a2f5ea5], 42, m)
         == [0x5a2f5ea5, 0x31c465ca, 0xfadcaa38, 0x11de1779]
  {
    Schedule40();
  }

  lemma AbcStep43(m: seq<bv32>)
    requires AbcBlock(m)
    ensures Step([0x5a2f5ea5, 0x31c465ca, 0xfadcaa38, 0x11de1779], 43, m)
         == [0x11de1779, 0x4c6124f4, 0x31c465ca, 0xfadcaa38]
  {
    Schedule40();
  }

  lemma AbcStep44(m: seq<bv32>)
    requires AbcBlock(m)
    ensures Step([0x11de1779, 0x4c6124f4, 0x31c465ca, 0xfadcaa38], 44, m)
         == [0xfadcaa38, 0x7f2e507b, 0x4c6124f4, 0x31c465ca]
  {
    Schedule44();
  }

  lemma AbcStep45(m: seq<bv32>)
    requires AbcBlock(m)
    ensures Step([0xfadcaa38, 0x7f2e507b, 0x4c6124f4, 0x31c465ca], 45, m)
         == [0x31c465ca, 0x99d9679d, 0x7f2e507b, 0x4c6124f4]
  {
    Schedule44();
  }

  lemma AbcStep46(m: seq<bv32>)
    requires AbcBlock(m)
    ensures Step([0x31c465ca, 0x99d9679d, 0x7f2e507b, 0x4c6124f4], 46, m)
         == [0x4c6124f4, 0x8fae6399, 0x99d9679d, 0x7f2e507b]
  {
    Schedule44();
  }

  lemma AbcStep47(m: seq<bv32>)
    requires AbcBlock(m)
    ensures Step([0x4c6124f4, 0x8fae6399, 0x99d9679d, 0x7f2e507b], 47, m)
         == [0x7f2e507b, 0x7beb9700, 0x8fae6399, 0x99d9679d]
  {
    Schedule44();
  }

  lemma AbcStep48(m: seq<bv32>)
    requires AbcBlock(m)
    ensures Step([0x7f2e507b, 0x7beb9700, 0x8fae6399, 0x99d9679d], 48, m)
         == [0x99d9679d, 0x7b201df8, 0x7beb9700, 0x8fae6399]
  {
    Schedule48();
  }

  lemma AbcStep49(m: seq<bv32>)
    requires AbcBlock(m)
    ensures Step([0x99d9679d, 0x7b201df8, 0x7beb9700, 0x8fae6399], 49, m)
         == [0x8fae6399, 0xf4e8e96e, 0x7b201df8, 0x7beb9700]
  {
    Schedule48();
  }

  lemma AbcStep50(m: seq<bv32>)
    requires AbcBlock(m)
    ensures Step([0x8fae6399, 0xf4e8e96e, 0x7b201df8, 0x7beb9700], 50, m)
         == [0x7beb9700, 0xb298cefd, 0xf4e8e96e, 0x7b201df8]
  {
    Schedule48();
  }

  lemma AbcStep51(m: seq<bv32>)
    requires AbcBlock(m)
    ensures Step([0x7beb9700, 0xb298cefd, 0xf4e8e96e, 0x7b201df8], 51, m)
         == [0x7b201df8, 0x8bf025c4, 0xb298cefd, 0xf4e8e96e]
  {
    Schedule48();
  }

  lemma AbcStep52(m: seq<bv32>)
    requires AbcBlock(m)
    ensures Step([0x7b201df8, 0x8bf025c4, 0xb298cefd, 0xf4e8e96e], 52, m)
         == [0xf4e8e96e, 0x06cc5e8a, 0x8bf025c4, 0xb298cefd]
  {
    Schedule52();
  }

  lemma AbcStep53(m: seq<bv32>)
    requires AbcBlock(m)
    ensures Step([0xf4e8e96e, 0x06cc5e8a, 0x8bf025c4, 0xb298cefd], 53, m)
         == [0xb298cefd, 0x5b0d97aa, 0x06cc5e8a, 0x8bf025c4]
  {
    Schedule52();
  }

  lemma AbcStep54(m: seq<bv32>)
    requires AbcBlock(m)
    ensures Step([0xb298cefd, 0x5b0d97aa, 0x06cc5e8a, 0x8bf025c4], 54, m)
         == [0x8bf025c4, 0x7d632dd0, 0x5b0d97aa, 0x06cc5e8a]
  {
    Schedule52();
  }

  lemma AbcStep55(m: seq<bv32>)
    requires AbcBlock(m)
    ensures Step([0x8bf025c4, 0x7d632dd0, 0x5b0d97aa, 0x06cc5e8a], 55, m)
         == [0x06cc5e8a, 0x3bfa2c27, 0x7d632dd0, 0x5b0d97aa]
  {
    Schedule52();
  }

  lemma AbcStep56(m: seq<bv32>)
    requires AbcBlock(m)
    ensures Step([0x06cc5e8a, 0x3bfa2c27, 0x7d632dd0, 0x5b0d97aa], 56, m)
         == [0x5b0d97aa, 0x7f81cc35, 0x3bfa2c27, 0x7d632dd0]
  {
    Schedule56();
  }

  lemma AbcStep57(m: seq<bv32>)
    requires AbcBlock(m)
    ensures Step([0x5b0d97aa, 0x7f81cc35, 0x3bfa2c27, 0x7d632dd0], 57, m)
         == [0x7d632dd0, 0x094454ab, 0x7f81cc35, 0x3bfa2c27]
  {
    Schedule56();
  }

  lemma AbcStep58(m: seq<bv32>)
    requires AbcBlock(m)
    ensures Step([0x7d632dd0, 0x094454ab, 0x7f81cc35, 0x3bfa2c27], 58, m)
         == [0x3bfa2c27, 0x4f9dbe3f, 0x094454ab, 0x7f81cc35]
  {
    Schedule56();
  }

  lemma AbcStep59(m: seq<bv32>)
    requires AbcBlock(m)
    ensures Step([0x3bfa2c27, 0x4f9dbe3f, 0x094454ab, 0x7f81cc35], 59, m)
         == [0x7f81cc35, 0x7327d604, 0x4f9dbe3f, 0x094454ab]
  {
    Schedule56();
  }

  lemma AbcStep60(m: seq<bv32>)
    requires AbcBlock(m)
    ensures Step([0x7f81cc35, 0x7327d604, 0x4f9dbe3f, 0x094454ab], 60, m)
         == [0x094454ab, 0x310ade8f, 0x7327d604, 0x4f9dbe3f]
  {
    Schedule60();
  }

  lemma AbcStep61(m: seq<bv32>)
    requires AbcBlock(m)
    ensures Step([0x094454ab, 0x310ade8f, 0x7327d604, 0x4f9dbe3f], 61, m)
         == [0x4f9dbe3f, 0x624d8cb2, 0x310ade8f, 0x7327d604]
  {
    Schedule60();
  }

  lemma AbcStep62(m: seq<bv32>)
    requires AbcBlock(m)
    ensures Step([0x4f9dbe3f, 0x624d8cb2, 0x310ade8f, 0x7327d604], 62, m)
         == [0x7327d604, 0xe484b9d8, 0x624d8cb2, 0x310ade8f]
  {
    Schedule60();
  }

  lemma AbcStep63(m: seq<bv32>)
    requires AbcBlock(m)
    ensures Step([0x7327d604, 0xe484b9d8, 0x624d8cb2, 0x310ade8f], 63, m)
         == [0x310ade8f, 0xc08226b3, 0xe484b9d8, 0x624d8cb2]
  {
    Schedule60();
  }

  lemma AbcSteps16(m: seq<bv32>)
    requires AbcBlock(m)
    ensures Steps(Init, m, 16) == [0xdda9b9a6, 0x72aff2e0, 0xe396856b, 0xa1051895]
  {
    AbcStep0(m);
    assert Steps(Init, m, 1) == [0x10325476, 0xd6d117b4, 0xefcdab89, 0x98badcfe];
    AbcStep1(m);
    assert Steps(Init, m, 2) == [0x98badcfe, 0x344a8432, 0xd6d117b4, 0xefcdab89];
    AbcStep2(m);
    assert Steps(Init, m, 3) == [0xefcdab89, 0x2f6fbd72, 0x344a8432, 0xd6d117b4];
    AbcStep3(m);
    assert Steps(Init, m, 4) == [0xd6d117b4, 0x7ad956f2, 0x2f6fbd72, 0x344a8432];
    AbcStep4(m);
    assert Steps(Init, m, 5) == [0x344a8432, 0xc73741ef, 0x7ad956f2, 0x2f6fbd72];
    AbcStep5(m);
    assert Steps(Init, m, 6) == [0x2f6fbd72, 0x8bac3051, 0xc73741ef, 0x7ad956f2];
    AbcStep6(m);
    assert Steps(Init, m, 7) == [0x7ad956f2, 0x207dc67b, 0x8bac3051, 0xc73741ef];
    AbcStep7(m);
    assert Steps(Init, m, 8) == [0xc73741ef, 0x928d99f6, 0x207dc67b, 0x8bac3051];
    AbcStep8(m);
    assert Steps(Init, m, 9) == [0x8bac3051, 0x854b3712, 0x928d99f6, 0x207dc67b];
    AbcStep9(m);
    assert Steps(Init, m, 10) == [0x207dc67b, 0x74e2f284, 0x854b3712, 0x928d99f6];
    AbcStep10(m);
    assert Steps(Init, m, 11) == [0x928d99f6, 0x3020401c, 0x74e2f284, 0x854b3712];
    AbcStep11(m);
    assert Steps(Init, m, 12) == [0x854b3712, 0x5ed49596, 0x3020401c, 0x74e2f284];
    AbcStep12(m);
    assert Steps(Init, m, 13) == [0x74e2f284, 0xdda9b9a6, 0x5ed49596, 0x3020401c];
    AbcStep13(m);
    assert Steps(Init, m, 14) == [0x3020401c, 0xa1051895, 0xdda9b9a6, 0x5ed49596];
    AbcStep14(m);
    assert Steps(Init, m, 15) == [0x5ed49596, 0xe396856b, 0xa1051895, 0xdda9b9a6];
    AbcStep15(m);
    assert Steps(Init, m, 16) == [0xdda9b9a6, 0x72aff2e0, 0xe396856b, 0xa1051895];
  }

  lemma AbcSteps32(m: seq<bv32>)
    requires AbcBlock(m)
    ensures Steps(Init, m, 32) == [0x790a77fb, 0x726342d3, 0xa62884aa, 0x9f47e4f8]
  {
    AbcSteps16(m);
    AbcStep16(m);
    assert Steps(Init, m, 17) == [0xa1051895, 0x3e9e9126, 0x72aff2e0, 0xe396856b];
    AbcStep17(m);
    assert Steps(Init, m, 18) == [0xe396856b, 0x4a1d804e, 0x3e9e9126, 0x72aff2e0];
    AbcStep18(m);
    assert Steps(Init, m, 19) == [0x72aff2e0, 0xe25e1652, 0x4a1d804e, 0x3e9e9126];
    AbcStep19(m);
    assert Steps(Init, m, 20) == [0x3e9e9126, 0xb5b204e4, 0xe25e1652, 0x4a1d804e];
    AbcStep20(m);
    assert Steps(Init, m, 21) == [0x4a1d804e, 0x59a8ffda, 0xb5b204e4, 0xe25e1652];
    AbcStep21(m);
    assert Steps(Init, m, 22) == [0xe25e1652, 0x6d002f1e, 0x59a8ffda, 0xb5b204e4];
    AbcStep22(m);
    assert Steps(Init, m, 23) == [0xb5b204e4, 0xabfc7920, 0x6d002f1e, 0x59a8ffda];
    AbcStep23(m);
    assert Steps(Init, m, 24) == [0x59a8ffda, 0x47092c07, 0xabfc7920, 0x6d002f1e];
    AbcStep24(m);
    assert Steps(Init, m, 25) == [0x6d002f1e, 0xb7f268cf, 0x47092c07, 0xabfc7920];
    AbcStep25(m);
    assert Steps(Init, m, 26) == [0xabfc7920, 0x09388eff, 0xb7f268cf, 0x47092c07];
    AbcStep26(m);
    assert Steps(Init, m, 27) == [0x47092c07, 0xfe1623b1, 0x09388eff, 0xb7f268cf];
    AbcStep27(m);
    assert Steps(Init, m, 28) == [0xb7f268cf, 0x786acb8f, 0xfe1623b1, 0x09388eff];
    AbcStep28(m);
    assert Steps(Init, m, 29) == [0x09388eff, 0x790a77fb, 0x786acb8f, 0xfe1623b1];
    AbcStep29(m);
    assert Steps(Init, m, 30) == [0xfe1623b1, 0x9f47e4f8, 0x790a77fb, 0x786acb8f];
    AbcStep30(m);
    assert Steps(Init, m, 31) == [0x786acb8f, 0xa62884aa, 0x9f47e4f8, 0x790a77fb];
    AbcStep31(m);
    assert Steps(Init, m, 32) == [0x790a77fb, 0x726342d3, 0xa62884aa, 0x9f47e4f8];
  }

  lemma AbcSteps48(m: seq<bv32>)
    requires AbcBlock(m)
    ensures Steps(Init, m, 48) == [0x7f2e507b, 0x7beb9700, 0x8fae6399, 0x99d9679d]
  {
    AbcSteps32(m);
    AbcStep32(m);
    assert Steps(Init, m, 33) == [0x9f47e4f8, 0xb3707ebf, 0x726342d3, 0xa62884aa];
    AbcStep33(m);
    assert Steps(Init, m, 34) == [0xa62884aa, 0x60127b2e, 0xb3707ebf, 0x726342d3];
    AbcStep34(m);
    assert Steps(Init, m, 35) == [0x726342d3, 0x8d212ff5, 0x60127b2e, 0xb3707ebf];
    AbcStep35(m);
    assert Steps(Init, m, 36) == [0xb3707ebf, 0x3b0875c7, 0x8d212ff5, 0x60127b2e];
    AbcStep36(m);
    assert Steps(Init, m, 37) == [0x60127b2e, 0x21b117b9, 0x3b0875c7, 0x8d212ff5];
    AbcStep37(m);
    assert Steps(Init, m, 38) == [0x8d212ff5, 0x6e7429d5, 0x21b117b9, 0x3b0875c7];
    AbcStep38(m);
    assert Steps(Init, m, 39) == [0x3b0875c7, 0x3575227e, 0x6e7429d5, 0x21b117b9];
    AbcStep39(m);
    assert Steps(Init, m, 40) == [0x21b117b9, 0x5a2f5ea5, 0x3575227e, 0x6e7429d5];
    AbcStep40(m);
    assert Steps(Init, m, 41) == [0x6e7429d5, 0x11de1779, 0x5a2f5ea5, 0x3575227e];
    AbcStep41(m);
    assert Steps(Init, m, 42) == [0x3575227e, 0xfadcaa38, 0x11de1779, 0x5a2f5ea5];
    AbcStep42(m);
    assert Steps(Init, m, 43) == [0x5a2f5ea5, 0x31c465ca, 0xfadcaa38, 0x11de1779];
    AbcStep43(m);
    assert Steps(Init, m, 44) == [0x11de1779, 0x4c6124f4, 0x31c465ca, 0xfadcaa38];
    AbcStep44(m);
    assert Steps(Init, m, 45) == [0xfadcaa38, 0x7f2e507b, 0x4c6124f4, 0x31c465ca];
    AbcStep45(m);
    assert Steps(Init, m, 46) == [0x31c465ca, 0x99d9679d, 0x7f2e507b, 0x4c6124f4];
    AbcStep46(m);
    assert Steps(Init, m, 47) == [0x4c6124f4, 0x8fae6399, 0x99d9679d, 0x7f2e507b];
    AbcStep47(m);
    assert Steps(Init, m, 48) == [0x7f2e507b, 0x7beb9700, 0x8fae6399, 0x99d9679d];
  }

  lemma AbcSteps64(m: seq<bv32>)
    requires AbcBlock(m)
    ensures Steps(Init, m, 64) == [0x310ade8f, 0xc08226b3, 0xe484b9d8, 0x624d8cb2]
  {
    AbcSteps48(m);
    AbcStep48(m);
    assert Steps(Init, m, 49) == [0x99d9679d, 0x7b201df8, 0x7beb9700, 0x8fae6399];
    AbcStep49(m);
    assert Steps(Init, m, 50) == [0x8fae6399, 0xf4e8e96e, 0x7b201df8, 0x7beb9700];
    AbcStep50(m);
    assert Steps(Init, m, 51) == [0x7beb9700, 0xb298cefd, 0xf4e8e96e, 0x7b201df8];
    AbcStep51(m);
    assert Steps(Init, m, 52) == [0x7b201df8, 0x8bf025c4, 0xb298cefd, 0xf4e8e96e];
    AbcStep52(m);
    assert Steps(Init, m, 53) == [0xf4e8e96e, 0x06cc5e8a, 0x8bf025c4, 0xb298cefd];
    AbcStep53(m);
    assert Steps(Init, m, 54) == [0xb298cefd, 0x5b0d97aa, 0x06cc5e8a, 0x8bf025c4];
    AbcStep54(m);
    assert Steps(Init, m, 55) == [0x8bf025c4, 0x7d632dd0, 0x5b0d97aa, 0x06cc5e8a];
    AbcStep55(m);
    assert Steps(Init, m, 56) == [0x06cc5e8a, 0x3bfa2c27, 0x7d632dd0, 0x5b0d97aa];
    AbcStep56(m);
    assert Steps(Init, m, 57) == [0x5b0d97aa, 0x7f81cc35, 0x3bfa2c27, 0x7d632dd0];
    AbcStep57(m);
    assert Steps(Init, m, 58) == [0x7d632dd0, 0x094454ab, 0x7f81cc35, 0x3bfa2c27];
    AbcStep58(m);
    assert Steps(Init, m, 59) == [0x3bfa2c27, 0x4f9dbe3f, 0x094454ab, 0x7f81cc35];
    AbcStep59(m);
    assert Steps(Init, m, 60) == [0x7f81cc35, 0x7327d604, 0x4f9dbe3f, 0x094454ab];
    AbcStep60(m);
    assert Steps(Init, m, 61) == [0x094454ab, 0x310ade8f, 0x7327d604, 0x4f9dbe3f];
    AbcStep61(m);
    assert Steps(Init, m, 62) == [0x4f9dbe3f, 0x624d8cb2, 0x310ade8f, 0x7327d604];
    AbcStep62(m);
    assert Steps(Init, m, 63) == [0x7327d604, 0xe484b9d8, 0x624d8cb2, 0x310ade8f];
    AbcStep63(m);
    assert Steps(Init, m, 64) == [0x310ade8f, 0xc08226b3, 0xe484b9d8, 0x624d8cb2];
  }

  lemma AbcPadBytes0()
    ensures var buf := Padded([0x61, 0x62, 0x63]);
      |buf| == 64 && buf[0] == 0x61 && buf[1] == 0x62 && buf[2] == 0x63 && buf[3] == 0x80
  {
  }

  lemma AbcWord0(buf: seq<Byte>)
    requires buf == Padded([0x61, 0x62, 0x63])
    ensures |buf| == 64 && WordAt(buf, 0) == 0x80636261
  {
    AbcPadBytes0();
    WordAtValue(buf, 0, 0x80636261);
  }

  lemma AbcPadBytes1()
    ensures var buf := Padded([0x61, 0x62, 0x63]);
      |buf| == 64 && buf[4] == 0x00 && buf[5] == 0x00 && buf[6] == 0x00 && buf[7] == 0x00
  {
  }

  lemma AbcWord1(buf: seq<Byte>)
    requires buf == Padded([0x61, 0x62, 0x63])
    ensures |buf| == 64 && WordAt(buf, 4) == 0x00000000
  {
    AbcPadBytes1();
    WordAtValue(buf, 4, 0x00000000);
  }

  lemma AbcPadBytes2()
    ensures var buf := Padded([0x61, 0x62, 0x63]);
      |buf| == 64 && buf[8] == 0x00 && buf[9] == 0x00 && buf[10] == 0x00 && buf[11] == 0x00
  {
  }

  lemma AbcWord2(buf: seq<Byte>)
    requires buf == Padded([0x61, 0x62, 0x63])
    ensures |buf| == 64 && WordAt(buf, 8) == 0x00000000
  {
    AbcPadBytes2();
    WordAtValue(buf, 8, 0x00000000);
  }

  lemma AbcPadBytes3()
    ensures var buf := Padded([0x61, 0x62, 0x63]);
      |buf| == 64 && buf[12] == 0x00 && buf[13] == 0x00 && buf[14] == 0x00 && buf[15] == 0x00
  {
  }

  lemma AbcWord3(buf: seq<Byte>)
    requires buf == Padded([0x61, 0x62, 0x63])
    ensures |buf| == 64 && WordAt(buf, 12) == 0x00000000
  {
    AbcPadBytes3();
    WordAtValue(buf, 12, 0x00000000);
  }

  lemma AbcPadBytes4()
    ensures var buf := Padded([0x61, 0x62, 0x63]);
      |buf| == 64 && buf[16] == 0x00 && buf[17] == 0x00 && buf[18] == 0x00 && buf[19] == 0x00
  {
  }

  lemma AbcWord4(buf: seq<Byte>)
    requires buf == Padded([0x61, 0x62, 0x63])
    ensures |buf| == 64 && WordAt(buf, 16) == 0x00000000
  {
    AbcPadBytes4();
    WordAtValue(buf, 16, 0x00000000);
  }

  lemma AbcPadBytes5()
    ensures var buf := Padded([0x61, 0x62, 0x63]);
      |buf| == 64 && buf[20] == 0x00 && buf[21] == 0x00 && buf[22] == 0x00 && buf[23] == 0x00
  {
  }

  lemma AbcWord5(buf: seq<Byte>)
    requires buf == Padded([0x61, 0x62, 0x63])
    ensures |buf| == 64 && WordAt(buf, 20) == 0x00000000
  {
    AbcPadBytes5();
    WordAtValue(buf, 20, 0x00000000);
  }

  lemma AbcPadBytes6()
    ensures var buf := Padded([0x61, 0x62, 0x63]);
      |buf| == 64 && buf[24] == 0x00 && buf[25] == 0x00 && buf[26] == 0x00 && buf[27] == 0x00
  {
  }

  lemma AbcWord6(buf: seq<Byte>)
    requires buf == Padded([0x61, 0x62, 0x63])
    ensures |buf| == 64 && WordAt(buf, 24) == 0x00000000
  {
    AbcPadBytes6();
    WordAtValue(buf, 24, 0x00000000);
  }

  lemma AbcPadBytes7()
    ensures var buf := Padded([0x61, 0x62, 0x63]);
      |buf| == 64 && buf[28] == 0x00 && buf[29] == 0x00 && buf[30] == 0x00 && buf[31] == 0x00
  {
  }

  lemma AbcWord7(buf: seq<Byte>)
    requires buf == Padded([0x61, 0x62, 0x63])
    ensures |buf| == 64 && WordAt(buf, 28) == 0x00000000
  {
    AbcPadBytes7();
    WordAtValue(buf, 28, 0x00000000);
  }

  lemma AbcPadBytes8()
    ensures var buf := Padded([0x61, 0x62, 0x63]);
      |buf| == 64 && buf[32] == 0x00 && buf[33] == 0x00 && buf[34] == 0x00 && buf[35] == 0x00
  {
  }

  lemma AbcWord8(buf: seq<Byte>)
    requires buf == Padded([0x61, 0x62, 0x63])
    ensures |buf| == 64 && WordAt(buf, 32) == 0x00000000
  {
    AbcPadBytes8();
    WordAtValue(buf, 32, 0x00000000);
  }

  lemma AbcPadBytes9()
    ensures var buf := Padded([0x61, 0x62, 0x63]);
      |buf| == 64 && buf[36] == 0x00 && buf[37] == 0x00 && buf[38] == 0x00 && buf[39] == 0x00
  {
  }

  lemma AbcWord9(buf: seq<Byte>)
    requires buf == Padded([0x61, 0x62, 0x63])
    ensures |buf| == 64 && WordAt(buf, 36) == 0x00000000
  {
    AbcPadBytes9();
    WordAtValue(buf, 36, 0x00000000);
  }

  lemma AbcPadBytes10()
    ensures var buf := Padded([0x61, 0x62, 0x63]);
      |buf| == 64 && buf[40] == 0x00 && buf[41] == 0x00 && buf[42] == 0x00 && buf[43] == 0x00
  {
  }

  lemma AbcWord10(buf: seq<Byte>)
    requires buf == Padded([0x61, 0x62, 0x63])
    ensures |buf| == 64 && WordAt(buf, 40) == 0x00000000
  {
    AbcPadBytes10();
    WordAtValue(buf, 40, 0x00000000);
  }

  lemma AbcPadBytes11()
    ensures var buf := Padded([0x61, 0x62, 0x63]);
      |buf| == 64 && buf[44] == 0x00 && buf[45] == 0x00 && buf[46] == 0x00 && buf[47] == 0x00
  {
  }

  lemma AbcWord11(buf: seq<Byte>)
    requires buf == Padded([0x61, 0x62, 0x63])
    ensures |buf| == 64 && WordAt(buf, 44) == 0x00000000
  {
    AbcPadBytes11();
    WordAtValue(buf, 44, 0x00000000);
  }

  lemma AbcPadBytes12()
    ensures var buf := Padded([0x61, 0x62, 0x63]);
      |buf| == 64 && buf[48] == 0x00 && buf[49] == 0x00 && buf[50] == 0x00 && buf[51] == 0x00
  {
  }

  lemma AbcWord12(buf: seq<Byte>)
    requires buf == Padded([0x61, 0x62, 0x63])
    ensures |buf| == 64 && WordAt(buf, 48) == 0x00000000
  {
    AbcPadBytes12();
    WordAtValue(buf, 48, 0x00000000);
  }

  lemma AbcPadBytes13()
    ensures var buf := Padded([0x61, 0x62, 0x63]);
      |buf| == 64 && buf[52] == 0x00 && buf[53] == 0x00 && buf[54] == 0x00 && buf[55] == 0x00
  {
  }

  lemma AbcWord13(buf: seq<Byte>)
    requires buf == Padded([0x61, 0x62, 0x63])
    ensures |buf| == 64 && WordAt(buf, 52) == 0x00000000
  {
    AbcPadBytes13();
    WordAtValue(buf, 52, 0x00000000);
  }

  lemma AbcPadBytes14()
    ensures var buf := Padded([0x61, 0x62, 0x63]);
      |buf| == 64 && buf[56] == 0x18 && buf[57] == 0x00 && buf[58] == 0x00 && buf[59] == 0x00
  {
  }

  lemma AbcWord14(buf: seq<Byte>)
    requires buf == Padded([0x61, 0x62, 0x63])
    ensures |buf| == 64 && WordAt(buf, 56) == 0x00000018
  {
    AbcPadBytes14();
    WordAtValue(buf, 56, 0x00000018);
  }

  lemma AbcPadBytes15()
    ensures var buf := Padded([0x61, 0x62, 0x63]);
      |buf| == 64 && buf[60] == 0x00 && buf[61] == 0x00 && buf[62] == 0x00 && buf[63] == 0x00
  {
  }

  lemma AbcWord15(buf: seq<Byte>)
    requires buf == Padded([0x61, 0x62, 0x63])
    ensures |buf| == 64 && WordAt(buf, 60) == 0x00000000
  {
    AbcPadBytes15();
    WordAtValue(buf, 60, 0x00000000);
  }

  lemma AbcBlockWords()
    ensures AbcBlock(BlockWords(Padded([0x61, 0x62, 0x63]), 0))
  {
    AbcWord0(Padded([0x61, 0x62, 0x63]));
    AbcWord1(Padded([0x61, 0x62, 0x63]));
    AbcWord2(Padded([0x61, 0x62, 0x63]));
    AbcWord3(Padded([0x61, 0x62, 0x63]));
    AbcWord4(Padded([0x61, 0x62, 0x63]));
    AbcWord5(Padded([0x61, 0x62, 0x63]));
    AbcWord6(Padded([0x61, 0x62, 0x63]));
    AbcWord7(Padded([0x61, 0x62, 0x63]));
    AbcWord8(Padded([0x61, 0x62, 0x63]));
    AbcWord9(Padded([0x61, 0x62, 0x63]));
    AbcWord10(Padded([0x61, 0x62, 0x63]));
    AbcWord11(Padded([0x61, 0x62, 0x63]));
    AbcWord12(Padded([0x61, 0x62, 0x63]));
    AbcWord13(Padded([0x61, 0x62, 0x63]));
    AbcWord14(Padded([0x61, 0x62, 0x63]));
    AbcWord15(Padded([0x61, 0x62, 0x63]));
  }

  lemma AbcDigest()
    ensures Digest([0x61, 0x62, 0x63]) == [0x98500190, 0xb04fd23c, 0x7d3f96d6, 0x727fe128]
  {
    var buf := Padded([0x61, 0x62, 0x63]);
    PaddedLength([0x61, 0x62, 0x63]);
    assert |buf| / 64 == 1;
    AbcBlockWords();
    AbcSteps64(BlockWords(buf, 0));
    assert AfterBlocks(buf, 1) == Compress(Init, BlockWords(buf, 0));
  }

  lemma AbcHex0(w: bv32)
    requires w == 0x98500190
    ensures HexOf(WordBytes(w)) == "90015098"
  {
    AbcBytes0();
    AbcHexBytes0();
  }

  lemma AbcBytes0()
    ensures WordBytes(0x98500190) == [0x90, 0x01, 0x50, 0x98]
  {
  }

  lemma AbcHexBytes0()
    ensures HexOf([0x90, 0x01, 0x50, 0x98]) == "90015098"
  {
    HexOfFour(0x90, 0x01, 0x50, 0x98);
    assert ByteHex(0x90) == "90";
    assert ByteHex(0x01) == "01";
    assert ByteHex(0x50) == "50";
    assert ByteHex(0x98) == "98";
  }

  lemma AbcHex1(w: bv32)
    requires w == 0xb04fd23c
    ensures HexOf(WordBytes(w)) == "3cd24fb0"
  {
    AbcBytes1();
    AbcHexBytes1();
  }

  lemma AbcBytes1()
    ensures WordBytes(0xb04fd23c) == [0x3c, 0xd2, 0x4f, 0xb0]
  {
  }

  lemma AbcHexBytes1()
    ensures HexOf([0x3c, 0xd2, 0x4f, 0xb0]) == "3cd24fb0"
  {
    HexOfFour(0x3c, 0xd2, 0x4f, 0xb0);
    assert ByteHex(0x3c) == "3c";
    assert ByteHex(0xd2) == "d2";
    assert ByteHex(0x4f) == "4f";
    assert ByteHex(0xb0) == "b0";
  }

  lemma AbcHex2(w: bv32)
    requires w == 0x7d3f96d6
    ensures HexOf(WordBytes(w)) == "d6963f7d"
  {
    AbcBytes2();
    AbcHexBytes2();
  }

  lemma AbcBytes2()
    ensures WordBytes(0x7d3f96d6) == [0xd6, 0x96, 0x3f, 0x7d]
  {
  }

  lemma AbcHexBytes2()
    ensures HexOf([0xd6, 0x96, 0x3f, 0x7d]) == "d6963f7d"
  {
    HexOfFour(0xd6, 0x96, 0x3f, 0x7d);
    assert ByteHex(0xd6) == "d6";
    assert ByteHex(0x96) == "96";
    assert ByteHex(0x3f) == "3f";
    assert ByteHex(0x7d) == "7d";
  }

  lemma AbcHex3(w: bv32)
    requires w == 0x727fe128
    ensures HexOf(WordBytes(w)) == "28e17f72"
  {
    AbcBytes3();
    AbcHexBytes3();
  }

  lemma AbcBytes3()
    ensures WordBytes(0x727fe128) == [0x28, 0xe1, 0x7f, 0x72]
  {
  }

  lemma AbcHexBytes3()
    ensures HexOf([0x28, 0xe1, 0x7f, 0x72]) == "28e17f72"
  {
    HexOfFour(0x28, 0xe1, 0x7f, 0x72);
    assert ByteHex(0x28) == "28";
    assert ByteHex(0xe1) == "e1";
    assert ByteHex(0x7f) == "7f";
    assert ByteHex(0x72) == "72";
  }

  lemma AbcWordsHex(h: Words)
    requires h == [0x98500190, 0xb04fd23c, 0x7d3f96d6, 0x727fe128]
    ensures HexOf(WordBytes(h[0])) + HexOf(WordBytes(h[1])) + HexOf(WordBytes(h[2])) + HexOf(WordBytes(h[3]))
      == "90015098" + "3cd24fb0" + "d6963f7d" + "28e17f72"
  {
    AbcHex0(h[0]);
    AbcHex1(h[1]);
    AbcHex2(h[2]);
    AbcHex3(h[3]);
  }

  lemma AbcHexConcat()
    ensures "90015098" + "3cd24fb0" + "d6963f7d" + "28e17f72" == "900150983cd24fb0d6963f7d28e17f72"
  {
  }

  /** `md5Hex("abc")` is 900150983cd24fb0d6963f7d28e17f72. */
  lemma AbcVector()
    ensures Md5HexOf([0x61, 0x62, 0x63]) == "900150983cd24fb0d6963f7d28e17f72"
  {
    AbcDigest();
    AbcWordsHex([0x98500190, 0xb04fd23c, 0x7d3f96d6, 0x727fe128]);
    AbcHexConcat();
    Md5HexFromWords([0x61, 0x62, 0x63], [0x98500190, 0xb04fd23c, 0x7d3f96d6, 0x727fe128], "900150983cd24fb0d6963f7d28e17f72");
  }
}
