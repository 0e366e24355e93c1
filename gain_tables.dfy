/**
 * The two chips' gain tables: 32-bit fixed-point gain codes indexed by the
 * volume control, in 1 dB steps from -110 dB (index 0) upwards, with index
 * 110 at 0 dB. Each table is written as rows of ten entries (one 10 dB
 * decade of the control each), joined in order. The rows are there for the
 * verifier: facts about a short row are cheap to check one at a time, and
 * the generic lemmas about `Flatten` carry them over to the whole table.
 */
module GainTables {
  import opened Basics

  /** A larger index always means a larger gain code. */
  ghost predicate StrictlyIncreasing(s: seq<int>)
  {
    forall i, j :: 0 <= i < j < |s| ==> s[i] < s[j]
  }

  /** The rows joined in order. */
  function Flatten(rows: seq<seq<uint32>>): (t: seq<uint32>)
    decreases |rows|
  {
    if |rows| == 0 then [] else rows[0] + Flatten(rows[1..])
  }

  /**
   * Every row but the last holds exactly ten entries, the last one at most
   * ten and at least one; each row increases and ends below the first entry
   * of the next row.
   */
  ghost predicate Decades(rows: seq<seq<uint32>>)
    decreases |rows|
  {
    |rows| > 0 && StrictlyIncreasing(rows[0]) &&
    if |rows| == 1 then 0 < |rows[0]| <= 10
    else |rows[0]| == 10 && |rows[1]| > 0 && rows[0][9] < rows[1][0] && Decades(rows[1..])
  }

  /** Joining decades gives 10 entries per full row plus the last row's. */
  lemma {:induction false} FlattenLength(rows: seq<seq<uint32>>)
    requires Decades(rows)
    ensures |Flatten(rows)| == 10 * (|rows| - 1) + |rows[|rows| - 1]|
    decreases |rows|
  {
    if |rows| > 1 {
      FlattenLength(rows[1..]);
    }
  }

  /** Entry i of the joined table is entry i % 10 of row i / 10. */
  lemma {:induction false} FlattenIndex(rows: seq<seq<uint32>>, i: nat)
    requires Decades(rows)
    requires i < |Flatten(rows)|
    ensures i / 10 < |rows| && i % 10 < |rows[i / 10]|
    ensures Flatten(rows)[i] == rows[i / 10][i % 10]
    decreases |rows|
  {
    if i >= 10 {
      FlattenLength(rows);
      assert |rows| > 1;
      FlattenIndex(rows[1..], i - 10);
      assert (i - 10) / 10 == i / 10 - 1 && (i - 10) % 10 == i % 10;
    }
  }

  /** Joining decades gives a strictly increasing table. */
  lemma {:induction false} FlattenIncreasing(rows: seq<seq<uint32>>)
    requires Decades(rows)
    ensures StrictlyIncreasing(Flatten(rows))
    decreases |rows|
  {
    if |rows| > 1 {
      var rest := rows[1..];
      FlattenIncreasing(rest);
      var f := Flatten(rest);
      assert f[0] == rows[1][0];
      var t := rows[0] + f;
      assert Flatten(rows) == t;
      forall i, j | 0 <= i < j < |t| ensures t[i] < t[j] {
        if j < 10 {
          assert t[i] == rows[0][i] && t[j] == rows[0][j];
        } else if i >= 10 {
          assert t[i] == f[i - 10] && t[j] == f[j - 10];
        } else {
          assert t[i] == rows[0][i] && t[j] == f[j - 10];
          assert rows[0][i] <= rows[0][9];
          assert 0 == j - 10 || f[0] < f[j - 10];
        }
      }
    } else {
      assert Flatten(rows) == rows[0] + [];
    }
  }

  // ----- ACM8635 (acm8635_volume): 159 entries, -110 dB .. +48 dB -----

  /** Indices 0 .. 9: -110 dB .. -101 dB. */
  const ACM8635_ROW00: seq<uint32> :=
    [0x0000001B, 0x0000001E, 0x00000021, 0x00000025, 0x0000002A,
     0x0000002F, 0x00000035, 0x0000003B, 0x00000043, 0x0000004B]

  /** Indices 10 .. 19: -100 dB .. -91 dB. */
  const ACM8635_ROW01: seq<uint32> :=
    [0x00000054, 0x0000005E, 0x0000006A, 0x00000076, 0x00000085,
     0x00000095, 0x000000A7, 0x000000BC, 0x000000D3, 0x000000EC]

  /** Indices 20 .. 29: -90 dB .. -81 dB. */
  const ACM8635_ROW02: seq<uint32> :=
    [0x00000109, 0x0000012A, 0x0000014E, 0x00000177, 0x000001A4,
     0x000001D8, 0x00000211, 0x00000252, 0x0000029A, 0x000002EC]

  /** Indices 30 .. 39: -80 dB .. -71 dB. */
  const ACM8635_ROW03: seq<uint32> :=
    [0x00000347, 0x000003AD, 0x00000420, 0x000004A1, 0x00000532,
     0x000005D4, 0x0000068A, 0x00000756, 0x0000083B, 0x0000093C]

  /** Indices 40 .. 49: -70 dB .. -61 dB. */
  const ACM8635_ROW04: seq<uint32> :=
    [0x00000A5D, 0x00000BA0, 0x00000D0C, 0x00000EA3, 0x0000106C,
     0x0000126D, 0x000014AD, 0x00001733, 0x00001A07, 0x00001D34]

  /** Indices 50 .. 59: -60 dB .. -51 dB. */
  const ACM8635_ROW05: seq<uint32> :=
    [0x000020C5, 0x000024C4, 0x00002941, 0x00002E49, 0x000033EF,
     0x00003A45, 0x00004161, 0x0000495C, 0x0000524F, 0x00005C5A]

  /** Indices 60 .. 69: -50 dB .. -41 dB. */
  const ACM8635_ROW06: seq<uint32> :=
    [0x0000679F, 0x00007444, 0x00008274, 0x0000925F, 0x0000A43B,
     0x0000B845, 0x0000CEC1, 0x0000E7FB, 0x00010449, 0x0001240C]

  /** Indices 70 .. 79: -40 dB .. -31 dB. */
  const ACM8635_ROW07: seq<uint32> :=
    [0x000147AE, 0x00016FAA, 0x00019C86, 0x0001CEDC, 0x00020756,
     0x000246B5, 0x00028DCF, 0x0002DD96, 0x00033718, 0x00039B87]

  /** Indices 80 .. 89: -30 dB .. -21 dB. */
  const ACM8635_ROW08: seq<uint32> :=
    [0x00040C37, 0x00048AA7, 0x00051884, 0x0005B7B1, 0x00066A4A,
     0x000732AE, 0x00081385, 0x00090FCC, 0x000A2ADB, 0x000B6873]

  /** Indices 90 .. 99: -20 dB .. -11 dB. */
  const ACM8635_ROW09: seq<uint32> :=
    [0x000CCCCD, 0x000E5CA1, 0x00101D3F, 0x0012149A, 0x00144961,
     0x0016C311, 0x00198A13, 0x001CA7D7, 0x002026F3, 0x00241347]

  /** Indices 100 .. 109: -10 dB .. -1 dB. */
  const ACM8635_ROW10: seq<uint32> :=
    [0x00287A27, 0x002D6A86, 0x0032F52D, 0x00392CEE, 0x004026E7,
     0x0047FACD, 0x0050C336, 0x005A9DF8, 0x0065AC8C, 0x00721483]

  /** Indices 110 .. 119: 0 dB .. 9 dB. */
  const ACM8635_ROW11: seq<uint32> :=
    [0x00800000, 0x008F9E4D, 0x00A12478, 0x00B4CE08, 0x00CADDC8,
     0x00E39EA9, 0x00FF64C1, 0x011E8E6A, 0x0141857F, 0x0168C0C6]

  /** Indices 120 .. 129: 10 dB .. 19 dB. */
  const ACM8635_ROW12: seq<uint32> :=
    [0x0194C584, 0x01C62940, 0x01FD93C2, 0x023BC148, 0x02818508,
     0x02CFCC01, 0x0327A01A, 0x038A2BAD, 0x03F8BD7A, 0x0474CD1B]

  /** Indices 130 .. 139: 20 dB .. 29 dB. */
  const ACM8635_ROW13: seq<uint32> :=
    [0x05000000, 0x059C2F02, 0x064B6CAE, 0x07100C4D, 0x07ECA9CD,
     0x08E43299, 0x09F9EF8E, 0x0B319025, 0x0C8F36F2, 0x0E1787B8]

  /** Indices 140 .. 149: 30 dB .. 39 dB. */
  const ACM8635_ROW14: seq<uint32> :=
    [0x0FCFB725, 0x11BD9C84, 0x13E7C594, 0x16558CCB, 0x190F3254,
     0x1C1DF80E, 0x1F8C4107, 0x2365B4BF, 0x27B766C2, 0x2C900313]

  /** Indices 150 .. 158: 40 dB .. 48 dB. */
  const ACM8635_ROW15: seq<uint32> :=
    [0x32000000, 0x3819D612, 0x3EF23ECA, 0x46A07B07, 0x4F3EA203,
     0x58E9F9F9, 0x63C35B8E, 0x6FEFA16D, 0x7D982575]

  const ACM8635_VOLUME_ROWS: seq<seq<uint32>> := [
    ACM8635_ROW00, ACM8635_ROW01, ACM8635_ROW02, ACM8635_ROW03,
    ACM8635_ROW04, ACM8635_ROW05, ACM8635_ROW06, ACM8635_ROW07,
    ACM8635_ROW08, ACM8635_ROW09, ACM8635_ROW10, ACM8635_ROW11,
    ACM8635_ROW12, ACM8635_ROW13, ACM8635_ROW14, ACM8635_ROW15
  ]

  const ACM8635_VOLUME: seq<uint32> := Flatten(ACM8635_VOLUME_ROWS)

  /** 159 entries, so the largest control value is 158; entry 110 is the 0 dB code 0x00800000, and +20 dB and +40 dB are exactly ten and a hundred times it. */
  lemma Acm8635VolumeTable()
    ensures |ACM8635_VOLUME| == 159
    ensures ACM8635_VOLUME[110] == 0x0080_0000
    ensures ACM8635_VOLUME[130] == 10 * ACM8635_VOLUME[110]
    ensures ACM8635_VOLUME[150] == 100 * ACM8635_VOLUME[110]
  {
    var rows := ACM8635_VOLUME_ROWS;
    Acm8635Decades();
    FlattenLength(rows);
    FlattenIndex(rows, 110);
    FlattenIndex(rows, 130);
    FlattenIndex(rows, 150);
  }

  /** The gain codes grow strictly with the index. */
  lemma Acm8635VolumeIncreasing()
    ensures StrictlyIncreasing(ACM8635_VOLUME)
  {
    Acm8635Decades();
    FlattenIncreasing(ACM8635_VOLUME_ROWS);
  }

  lemma Acm8635Row00()
    ensures StrictlyIncreasing(ACM8635_ROW00) && |ACM8635_ROW00| == 10 && ACM8635_ROW00[9] < ACM8635_ROW01[0]
  {
  }

  lemma Acm8635Row01()
    ensures StrictlyIncreasing(ACM8635_ROW01) && |ACM8635_ROW01| == 10 && ACM8635_ROW01[9] < ACM8635_ROW02[0]
  {
  }

  lemma Acm8635Row02()
    ensures StrictlyIncreasing(ACM8635_ROW02) && |ACM8635_ROW02| == 10 && ACM8635_ROW02[9] < ACM8635_ROW03[0]
  {
  }

  lemma Acm8635Row03()
    ensures StrictlyIncreasing(ACM8635_ROW03) && |ACM8635_ROW03| == 10 && ACM8635_ROW03[9] < ACM8635_ROW04[0]
  {
  }

  lemma Acm8635Row04()
    ensures StrictlyIncreasing(ACM8635_ROW04) && |ACM8635_ROW04| == 10 && ACM8635_ROW04[9] < ACM8635_ROW05[0]
  {
  }

  lemma Acm8635Row05()
    ensures StrictlyIncreasing(ACM8635_ROW05) && |ACM8635_ROW05| == 10 && ACM8635_ROW05[9] < ACM8635_ROW06[0]
  {
  }

  lemma Acm8635Row06()
    ensures StrictlyIncreasing(ACM8635_ROW06) && |ACM8635_ROW06| == 10 && ACM8635_ROW06[9] < ACM8635_ROW07[0]
  {
  }

  lemma Acm8635Row07()
    ensures StrictlyIncreasing(ACM8635_ROW07) && |ACM8635_ROW07| == 10 && ACM8635_ROW07[9] < ACM8635_ROW08[0]
  {
  }

  lemma Acm8635Row08()
    ensures StrictlyIncreasing(ACM8635_ROW08) && |ACM8635_ROW08| == 10 && ACM8635_ROW08[9] < ACM8635_ROW09[0]
  {
  }

  lemma Acm8635Row09()
    ensures StrictlyIncreasing(ACM8635_ROW09) && |ACM8635_ROW09| == 10 && ACM8635_ROW09[9] < ACM8635_ROW10[0]
  {
  }

  lemma Acm8635Row10()
    ensures StrictlyIncreasing(ACM8635_ROW10) && |ACM8635_ROW10| == 10 && ACM8635_ROW10[9] < ACM8635_ROW11[0]
  {
  }

  lemma Acm8635Row11()
    ensures StrictlyIncreasing(ACM8635_ROW11) && |ACM8635_ROW11| == 10 && ACM8635_ROW11[9] < ACM8635_ROW12[0]
  {
  }

  lemma Acm8635Row12()
    ensures StrictlyIncreasing(ACM8635_ROW12) && |ACM8635_ROW12| == 10 && ACM8635_ROW12[9] < ACM8635_ROW13[0]
  {
  }

  lemma Acm8635Row13()
    ensures StrictlyIncreasing(ACM8635_ROW13) && |ACM8635_ROW13| == 10 && ACM8635_ROW13[9] < ACM8635_ROW14[0]
  {
  }

  lemma Acm8635Row14()
    ensures StrictlyIncreasing(ACM8635_ROW14) && |ACM8635_ROW14| == 10 && ACM8635_ROW14[9] < ACM8635_ROW15[0]
  {
  }

  lemma Acm8635Row15()
    ensures StrictlyIncreasing(ACM8635_ROW15) && 0 < |ACM8635_ROW15| <= 10
  {
  }

  /** Rows 12 .. 15 of the table form decades. */
  lemma Acm8635DecadesFrom12()
    ensures Decades(ACM8635_VOLUME_ROWS[12..])
  {
    var rows := ACM8635_VOLUME_ROWS;
    Acm8635Row12();
    Acm8635Row13();
    Acm8635Row14();
    Acm8635Row15();
    assert Decades(rows[15..]);
    assert Decades(rows[14..]);
    assert Decades(rows[13..]);
    assert Decades(rows[12..]);
  }

  /** Rows 8 .. 15 of the table form decades. */
  lemma Acm8635DecadesFrom08()
    ensures Decades(ACM8635_VOLUME_ROWS[8..])
  {
    var rows := ACM8635_VOLUME_ROWS;
    Acm8635DecadesFrom12();
    Acm8635Row08();
    Acm8635Row09();
    Acm8635Row10();
    Acm8635Row11();
    assert Decades(rows[11..]);
    assert Decades(rows[10..]);
    assert Decades(rows[9..]);
    assert Decades(rows[8..]);
  }

  /** Rows 4 .. 15 of the table form decades. */
  lemma Acm8635DecadesFrom04()
    ensures Decades(ACM8635_VOLUME_ROWS[4..])
  {
    var rows := ACM8635_VOLUME_ROWS;
    Acm8635DecadesFrom08();
    Acm8635Row04();
    Acm8635Row05();
    Acm8635Row06();
    Acm8635Row07();
    assert Decades(rows[7..]);
    assert Decades(rows[6..]);
    assert Decades(rows[5..]);
    assert Decades(rows[4..]);
  }

  /** The rows of the table form decades. */
  lemma Acm8635Decades()
    ensures Decades(ACM8635_VOLUME_ROWS)
  {
    var rows := ACM8635_VOLUME_ROWS;
    Acm8635DecadesFrom04();
    Acm8635Row00();
    Acm8635Row01();
    Acm8635Row02();
    Acm8635Row03();
    assert Decades(rows[3..]);
    assert Decades(rows[2..]);
    assert Decades(rows[1..]);
    assert Decades(rows[0..]);
    assert rows[0..] == rows;
  }



  // ----- ACM8623 (acm8623_volume): 135 entries, -110 dB .. +24 dB -----

  /** Indices 0 .. 9: -110 dB .. -101 dB. */
  const ACM8623_ROW00: seq<uint32> :=
    [0x000001A8, 0x000001DC, 0x00000216, 0x00000258, 0x000002A1,
     0x000002F3, 0x0000034F, 0x000003B6, 0x0000042A, 0x000004AC]

  /** Indices 10 .. 19: -100 dB .. -91 dB. */
  const ACM8623_ROW01: seq<uint32> :=
    [0x0000053E, 0x000005E2, 0x0000069A, 0x00000768, 0x0000084F,
     0x00000953, 0x00000A76, 0x00000BBD, 0x00000D2B, 0x00000EC7]

  /** Indices 20 .. 29: -90 dB .. -81 dB. */
  const ACM8623_ROW02: seq<uint32> :=
    [0x00001094, 0x0000129A, 0x000014DF, 0x0000176B, 0x00001A47,
     0x00001D7C, 0x00002115, 0x0000251E, 0x000029A5, 0x00002EBA]

  /** Indices 30 .. 39: -80 dB .. -71 dB. */
  const ACM8623_ROW03: seq<uint32> :=
    [0x0000346E, 0x00003AD3, 0x00004201, 0x00004A0F, 0x00005318,
     0x00005D3C, 0x0000689C, 0x00007560, 0x000083B2, 0x000093C4]

  /** Indices 40 .. 49: -70 dB .. -61 dB. */
  const ACM8623_ROW04: seq<uint32> :=
    [0x0000A5CB, 0x0000BA06, 0x0000D0B9, 0x0000EA31, 0x000106C4,
     0x000126D4, 0x00014ACE, 0x0001732B, 0x0001A075, 0x0001D346]

  /** Indices 50 .. 59: -60 dB .. -51 dB. */
  const ACM8623_ROW05: seq<uint32> :=
    [0x00020C4A, 0x00024C43, 0x0002940A, 0x0002E494, 0x00033EF1,
     0x0003A455, 0x00041618, 0x000495BC, 0x000524F4, 0x0005C5A5]

  /** Indices 60 .. 69: -50 dB .. -41 dB. */
  const ACM8623_ROW06: seq<uint32> :=
    [0x000679F2, 0x0007443E, 0x0008273A, 0x000925E9, 0x000A43AA,
     0x000B844A, 0x000CEC09, 0x000E7FAD, 0x00104491, 0x001240B9]

  /** Indices 70 .. 79: -40 dB .. -31 dB. */
  const ACM8623_ROW07: seq<uint32> :=
    [0x00147AE1, 0x0016FA9C, 0x0019C865, 0x001CEDC4, 0x00207568,
     0x00246B4E, 0x0028DCEC, 0x002DD959, 0x00337185, 0x0039B872]

  /** Indices 80 .. 89: -30 dB .. -21 dB. */
  const ACM8623_ROW08: seq<uint32> :=
    [0x0040C371, 0x0048AA71, 0x00518848, 0x005B7B16, 0x0066A4A5,
     0x00732AE2, 0x00813856, 0x0090FCBF, 0x00A2ADAD, 0x00B68738]

  /** Indices 90 .. 99: -20 dB .. -11 dB. */
  const ACM8623_ROW09: seq<uint32> :=
    [0x00CCCCCD, 0x00E5CA15, 0x0101D3F3, 0x012149A6, 0x0144960C,
     0x016C310E, 0x0198A135, 0x01CA7D76, 0x02026F31, 0x0241346F]

  /** Indices 100 .. 109: -10 dB .. -1 dB. */
  const ACM8623_ROW10: seq<uint32> :=
    [0x0287A26C, 0x02D6A867, 0x032F52D0, 0x0392CED9, 0x04026E74,
     0x047FACCF, 0x050C335D, 0x05A9DF7B, 0x065AC8C3, 0x0721482C]

  /** Indices 110 .. 119: 0 dB .. 9 dB. */
  const ACM8623_ROW11: seq<uint32> :=
    [0x08000000, 0x08F9E4D0, 0x0A12477C, 0x0B4CE07C, 0x0CADDC7B,
     0x0E39EA8E, 0x0FF64C17, 0x11E8E6A1, 0x141857EA, 0x168C0C5A]

  /** Indices 120 .. 129: 10 dB .. 19 dB. */
  const ACM8623_ROW12: seq<uint32> :=
    [0x194C583B, 0x1C629406, 0x1FD93C1F, 0x23BC1479, 0x28185086,
     0x2CFCC016, 0x327A01A4, 0x38A2BACB, 0x3F8BD79E, 0x474CD1B8]

  /** Indices 130 .. 134: 20 dB .. 24 dB. */
  const ACM8623_ROW13: seq<uint32> :=
    [0x50000000, 0x59C2F01D, 0x64B6CADD, 0x7100C4D8, 0x7ECA9CD2]

  const ACM8623_VOLUME_ROWS: seq<seq<uint32>> := [
    ACM8623_ROW00, ACM8623_ROW01, ACM8623_ROW02, ACM8623_ROW03,
    ACM8623_ROW04, ACM8623_ROW05, ACM8623_ROW06, ACM8623_ROW07,
    ACM8623_ROW08, ACM8623_ROW09, ACM8623_ROW10, ACM8623_ROW11,
    ACM8623_ROW12, ACM8623_ROW13
  ]

  const ACM8623_VOLUME: seq<uint32> := Flatten(ACM8623_VOLUME_ROWS)

  /** 135 entries, so the largest control value is 134; entry 110 is the 0 dB code 0x08000000, and +20 dB is exactly ten times it. */
  lemma Acm8623VolumeTable()
    ensures |ACM8623_VOLUME| == 135
    ensures ACM8623_VOLUME[110] == 0x0800_0000
    ensures ACM8623_VOLUME[130] == 10 * ACM8623_VOLUME[110]
  {
    var rows := ACM8623_VOLUME_ROWS;
    Acm8623Decades();
    FlattenLength(rows);
    FlattenIndex(rows, 110);
    FlattenIndex(rows, 130);
  }

  /** The gain codes grow strictly with the index. */
  lemma Acm8623VolumeIncreasing()
    ensures StrictlyIncreasing(ACM8623_VOLUME)
  {
    Acm8623Decades();
    FlattenIncreasing(ACM8623_VOLUME_ROWS);
  }

  lemma Acm8623Row00()
    ensures StrictlyIncreasing(ACM8623_ROW00) && |ACM8623_ROW00| == 10 && ACM8623_ROW00[9] < ACM8623_ROW01[0]
  {
  }

  lemma Acm8623Row01()
    ensures StrictlyIncreasing(ACM8623_ROW01) && |ACM8623_ROW01| == 10 && ACM8623_ROW01[9] < ACM8623_ROW02[0]
  {
  }

  lemma Acm8623Row02()
    ensures StrictlyIncreasing(ACM8623_ROW02) && |ACM8623_ROW02| == 10 && ACM8623_ROW02[9] < ACM8623_ROW03[0]
  {
  }

  lemma Acm8623Row03()
    ensures StrictlyIncreasing(ACM8623_ROW03) && |ACM8623_ROW03| == 10 && ACM8623_ROW03[9] < ACM8623_ROW04[0]
  {
  }

  lemma Acm8623Row04()
    ensures StrictlyIncreasing(ACM8623_ROW04) && |ACM8623_ROW04| == 10 && ACM8623_ROW04[9] < ACM8623_ROW05[0]
  {
  }

  lemma Acm8623Row05()
    ensures StrictlyIncreasing(ACM8623_ROW05) && |ACM8623_ROW05| == 10 && ACM8623_ROW05[9] < ACM8623_ROW06[0]
  {
  }

  lemma Acm8623Row06()
    ensures StrictlyIncreasing(ACM8623_ROW06) && |ACM8623_ROW06| == 10 && ACM8623_ROW06[9] < ACM8623_ROW07[0]
  {
  }

  lemma Acm8623Row07()
    ensures StrictlyIncreasing(ACM8623_ROW07) && |ACM8623_ROW07| == 10 && ACM8623_ROW07[9] < ACM8623_ROW08[0]
  {
  }

  lemma Acm8623Row08()
    ensures StrictlyIncreasing(ACM8623_ROW08) && |ACM8623_ROW08| == 10 && ACM8623_ROW08[9] < ACM8623_ROW09[0]
  {
  }

  lemma Acm8623Row09()
    ensures StrictlyIncreasing(ACM8623_ROW09) && |ACM8623_ROW09| == 10 && ACM8623_ROW09[9] < ACM8623_ROW10[0]
  {
  }

  lemma Acm8623Row10()
    ensures StrictlyIncreasing(ACM8623_ROW10) && |ACM8623_ROW10| == 10 && ACM8623_ROW10[9] < ACM8623_ROW11[0]
  {
  }

  lemma Acm8623Row11()
    ensures StrictlyIncreasing(ACM8623_ROW11) && |ACM8623_ROW11| == 10 && ACM8623_ROW11[9] < ACM8623_ROW12[0]
  {
  }

  lemma Acm8623Row12()
    ensures StrictlyIncreasing(ACM8623_ROW12) && |ACM8623_ROW12| == 10 && ACM8623_ROW12[9] < ACM8623_ROW13[0]
  {
  }

  lemma Acm8623Row13()
    ensures StrictlyIncreasing(ACM8623_ROW13) && 0 < |ACM8623_ROW13| <= 10
  {
  }

  /** Rows 12 .. 13 of the table form decades. */
  lemma Acm8623DecadesFrom12()
    ensures Decades(ACM8623_VOLUME_ROWS[12..])
  {
    var rows := ACM8623_VOLUME_ROWS;
    Acm8623Row12();
    Acm8623Row13();
    assert Decades(rows[13..]);
    assert Decades(rows[12..]);
  }

  /** Rows 8 .. 13 of the table form decades. */
  lemma Acm8623DecadesFrom08()
    ensures Decades(ACM8623_VOLUME_ROWS[8..])
  {
    var rows := ACM8623_VOLUME_ROWS;
    Acm8623DecadesFrom12();
    Acm8623Row08();
    Acm8623Row09();
    Acm8623Row10();
    Acm8623Row11();
    assert Decades(rows[11..]);
    assert Decades(rows[10..]);
    assert Decades(rows[9..]);
    assert Decades(rows[8..]);
  }

  /** Rows 4 .. 13 of the table form decades. */
  lemma Acm8623DecadesFrom04()
    ensures Decades(ACM8623_VOLUME_ROWS[4..])
  {
    var rows := ACM8623_VOLUME_ROWS;
    Acm8623DecadesFrom08();
    Acm8623Row04();
    Acm8623Row05();
    Acm8623Row06();
    Acm8623Row07();
    assert Decades(rows[7..]);
    assert Decades(rows[6..]);
    assert Decades(rows[5..]);
    assert Decades(rows[4..]);
  }

  /** The rows of the table form decades. */
  lemma Acm8623Decades()
    ensures Decades(ACM8623_VOLUME_ROWS)
  {
    var rows := ACM8623_VOLUME_ROWS;
    Acm8623DecadesFrom04();
    Acm8623Row00();
    Acm8623Row01();
    Acm8623Row02();
    Acm8623Row03();
    assert Decades(rows[3..]);
    assert Decades(rows[2..]);
    assert Decades(rows[1..]);
    assert Decades(rows[0..]);
    assert rows[0..] == rows;
  }


}
