// The packed table of the CABAC decoder beside the tables of the standard it encodes:
// rangeTabLPS (Table 9-44), transIdxLPS and transIdxMPS (Table 9-45), and the number of
// renormalisation shifts. Runs of equal entries of the packed table share one case.
module CabacTables {
  import opened BitMath

  // Entries 0 to 511: how far a range has to be shifted left to reach 256.
  function NormShift(i: nat): nat
    requires i < 512
  {
    if i < 1 then 9 else if i < 2 then 8 else if i < 4 then 7 else if i < 8 then 6 else if i < 16 then 5
    else if i < 32 then 4 else if i < 64 then 3 else if i < 128 then 2 else if i < 256 then 1 else 0
  }

  // Entries 512 to 1023, one column of 128 context states for each quarter of the range.
  function LpsRange(i: nat): int
    requires i < 512
  {
    if i < 128 then LpsColumn0(i)
    else if i < 256 then LpsColumn1(i - 128)
    else if i < 384 then LpsColumn2(i - 256)
    else LpsColumn3(i - 384)
  }

  function LpsColumn0(s: nat): int
    requires s < 128
  {
    if s < 32 then (
      match s
      case 0 | 1 | 2 | 3 | 4 | 5 => 128 case 6 | 7 => 123 case 8 | 9 => 116 case 10 | 11 => 111
      case 12 | 13 => 105 case 14 | 15 => 100 case 16 | 17 => 95 case 18 | 19 => 90 case 20 | 21 => 85
      case 22 | 23 => 81 case 24 | 25 => 77 case 26 | 27 => 73 case 28 | 29 => 69 case _ => 66)
    else if s < 64 then (
      match s
      case 32 | 33 => 62 case 34 | 35 => 59 case 36 | 37 => 56 case 38 | 39 => 53 case 40 | 41 => 51
      case 42 | 43 => 48 case 44 | 45 => 46 case 46 | 47 => 43 case 48 | 49 => 41 case 50 | 51 => 39
      case 52 | 53 => 37 case 54 | 55 => 35 case 56 | 57 => 33 case 58 | 59 => 32 case 60 | 61 => 30 case _ => 29)
    else if s < 96 then (
      match s
      case 64 | 65 => 27 case 66 | 67 => 26 case 68 | 69 => 24 case 70 | 71 => 23 case 72 | 73 => 22
      case 74 | 75 => 21 case 76 | 77 => 20 case 78 | 79 => 19 case 80 | 81 => 18 case 82 | 83 => 17
      case 84 | 85 => 16 case 86 | 87 => 15 case 88 | 89 | 90 | 91 => 14 case 92 | 93 => 13 case _ => 12)
    else (
      match s
      case 96 | 97 => 12 case 98 | 99 | 100 | 101 => 11 case 102 | 103 | 104 | 105 => 10
      case 106 | 107 | 108 | 109 => 9 case 110 | 111 | 112 | 113 => 8 case 114 | 115 | 116 | 117 | 118 | 119 => 7
      case 120 | 121 | 122 | 123 | 124 | 125 => 6 case _ => 2)
  }

  function LpsColumn1(s: nat): int
    requires s < 128
  {
    if s < 32 then (
      match s
      case 0 | 1 => 176 case 2 | 3 => 167 case 4 | 5 => 158 case 6 | 7 => 150 case 8 | 9 => 142
      case 10 | 11 => 135 case 12 | 13 => 128 case 14 | 15 => 122 case 16 | 17 => 116 case 18 | 19 => 110
      case 20 | 21 => 104 case 22 | 23 => 99 case 24 | 25 => 94 case 26 | 27 => 89 case 28 | 29 => 85 case _ => 80)
    else if s < 64 then (
      match s
      case 32 | 33 => 76 case 34 | 35 => 72 case 36 | 37 => 69 case 38 | 39 => 65 case 40 | 41 => 62
      case 42 | 43 => 59 case 44 | 45 => 56 case 46 | 47 => 53 case 48 | 49 => 50 case 50 | 51 => 48
      case 52 | 53 => 45 case 54 | 55 => 43 case 56 | 57 => 41 case 58 | 59 => 39 case 60 | 61 => 37 case _ => 35)
    else if s < 96 then (
      match s
      case 64 | 65 => 33 case 66 | 67 => 31 case 68 | 69 => 30 case 70 | 71 => 28 case 72 | 73 => 27
      case 74 | 75 => 26 case 76 | 77 => 24 case 78 | 79 => 23 case 80 | 81 => 22 case 82 | 83 => 21
      case 84 | 85 => 20 case 86 | 87 => 19 case 88 | 89 => 18 case 90 | 91 => 17 case 92 | 93 => 16 case _ => 15)
    else (
      match s
      case 96 | 97 | 98 | 99 => 14 case 100 | 101 => 13 case 102 | 103 | 104 | 105 => 12
      case 106 | 107 | 108 | 109 => 11 case 110 | 111 => 10 case 112 | 113 | 114 | 115 | 116 | 117 => 9
      case 118 | 119 | 120 | 121 => 8 case 122 | 123 | 124 | 125 => 7 case _ => 2)
  }

  function LpsColumn2(s: nat): int
    requires s < 128
  {
    if s < 32 then (
      match s
      case 0 | 1 => 208 case 2 | 3 => 197 case 4 | 5 => 187 case 6 | 7 => 178 case 8 | 9 => 169
      case 10 | 11 => 160 case 12 | 13 => 152 case 14 | 15 => 144 case 16 | 17 => 137 case 18 | 19 => 130
      case 20 | 21 => 123 case 22 | 23 => 117 case 24 | 25 => 111 case 26 | 27 => 105 case 28 | 29 => 100
      case _ => 95)
    else if s < 64 then (
      match s
      case 32 | 33 => 90 case 34 | 35 => 86 case 36 | 37 => 81 case 38 | 39 => 77 case 40 | 41 => 73
      case 42 | 43 => 69 case 44 | 45 => 66 case 46 | 47 => 63 case 48 | 49 => 59 case 50 | 51 => 56
      case 52 | 53 => 54 case 54 | 55 => 51 case 56 | 57 => 48 case 58 | 59 => 46 case 60 | 61 => 43 case _ => 41)
    else if s < 96 then (
      match s
      case 64 | 65 => 39 case 66 | 67 => 37 case 68 | 69 => 35 case 70 | 71 => 33 case 72 | 73 => 32
      case 74 | 75 => 30 case 76 | 77 => 29 case 78 | 79 => 27 case 80 | 81 => 26 case 82 | 83 => 25
      case 84 | 85 => 23 case 86 | 87 => 22 case 88 | 89 => 21 case 90 | 91 => 20 case 92 | 93 => 19 case _ => 18)
    else (
      match s
      case 96 | 97 => 17 case 98 | 99 => 16 case 100 | 101 | 102 | 103 => 15 case 104 | 105 => 14
      case 106 | 107 => 13 case 108 | 109 | 110 | 111 => 12 case 112 | 113 | 114 | 115 => 11
      case 116 | 117 | 118 | 119 => 10 case 120 | 121 | 122 | 123 => 9 case 124 | 125 => 8 case _ => 2)
  }

  function LpsColumn3(s: nat): int
    requires s < 128
  {
    if s < 32 then (
      match s
      case 0 | 1 => 240 case 2 | 3 => 227 case 4 | 5 => 216 case 6 | 7 => 205 case 8 | 9 => 195
      case 10 | 11 => 185 case 12 | 13 => 175 case 14 | 15 => 166 case 16 | 17 => 158 case 18 | 19 => 150
      case 20 | 21 => 142 case 22 | 23 => 135 case 24 | 25 => 128 case 26 | 27 => 122 case 28 | 29 => 116
      case _ => 110)
    else if s < 64 then (
      match s
      case 32 | 33 => 104 case 34 | 35 => 99 case 36 | 37 => 94 case 38 | 39 => 89 case 40 | 41 => 85
      case 42 | 43 => 80 case 44 | 45 => 76 case 46 | 47 => 72 case 48 | 49 => 69 case 50 | 51 => 65
      case 52 | 53 => 62 case 54 | 55 => 59 case 56 | 57 => 56 case 58 | 59 => 53 case 60 | 61 => 50 case _ => 48)
    else if s < 96 then (
      match s
      case 64 | 65 => 45 case 66 | 67 => 43 case 68 | 69 => 41 case 70 | 71 => 39 case 72 | 73 => 37
      case 74 | 75 => 35 case 76 | 77 => 33 case 78 | 79 => 31 case 80 | 81 => 30 case 82 | 83 => 28
      case 84 | 85 => 27 case 86 | 87 => 25 case 88 | 89 => 24 case 90 | 91 => 23 case 92 | 93 => 22 case _ => 21)
    else (
      match s
      case 96 | 97 => 20 case 98 | 99 => 19 case 100 | 101 => 18 case 102 | 103 => 17 case 104 | 105 => 16
      case 106 | 107 => 15 case 108 | 109 | 110 | 111 => 14 case 112 | 113 => 13 case 114 | 115 | 116 | 117 => 12
      case 118 | 119 | 120 | 121 => 11 case 122 | 123 => 10 case 124 | 125 => 9 case _ => 2)
  }

  // Entries 1024 to 1279: the next context state, at 128 + s for a most probable symbol and at
  // 127 - s for a least probable one.
  function MlpsState(i: nat): int
    requires i < 256
  {
    if i < 128 then LpsNext(i) else MpsNext(i - 128)
  }

  function LpsNext(i: nat): int
    requires i < 128
  {
    if i < 32 then (
      match i
      case 0 => 127 case 1 => 126 case 2 => 77 case 3 => 76 case 4 => 77 case 5 => 76 case 6 => 75 case 7 => 74
      case 8 => 75 case 9 => 74 case 10 => 75 case 11 => 74 case 12 => 73 case 13 => 72 case 14 => 73
      case 15 => 72 case 16 => 73 case 17 => 72 case 18 => 71 case 19 => 70 case 20 => 71 case 21 => 70
      case 22 => 71 case 23 => 70 case 24 => 69 case 25 => 68 case 26 => 69 case 27 => 68 case 28 => 67
      case 29 => 66 case 30 => 67 case _ => 66)
    else if i < 64 then (
      match i
      case 32 => 67 case 33 => 66 case 34 => 65 case 35 => 64 case 36 => 65 case 37 => 64 case 38 => 63
      case 39 => 62 case 40 => 61 case 41 => 60 case 42 => 61 case 43 => 60 case 44 => 61 case 45 => 60
      case 46 => 59 case 47 => 58 case 48 => 59 case 49 => 58 case 50 => 57 case 51 => 56 case 52 => 55
      case 53 => 54 case 54 => 55 case 55 => 54 case 56 => 53 case 57 => 52 case 58 => 53 case 59 => 52
      case 60 => 51 case 61 => 50 case 62 => 49 case _ => 48)
    else if i < 96 then (
      match i
      case 64 => 49 case 65 => 48 case 66 => 47 case 67 => 46 case 68 => 45 case 69 => 44 case 70 => 45
      case 71 => 44 case 72 => 43 case 73 => 42 case 74 => 43 case 75 => 42 case 76 => 39 case 77 => 38
      case 78 => 39 case 79 => 38 case 80 => 37 case 81 => 36 case 82 => 37 case 83 => 36 case 84 => 33
      case 85 => 32 case 86 => 33 case 87 => 32 case 88 => 31 case 89 => 30 case 90 => 31 case 91 => 30
      case 92 => 27 case 93 => 26 case 94 => 27 case _ => 26)
    else (
      match i
      case 96 => 25 case 97 => 24 case 98 => 23 case 99 => 22 case 100 => 23 case 101 => 22 case 102 => 19
      case 103 => 18 case 104 => 19 case 105 => 18 case 106 => 17 case 107 => 16 case 108 => 15 case 109 => 14
      case 110 => 13 case 111 => 12 case 112 => 11 case 113 => 10 case 114 => 9 case 115 => 8 case 116 => 9
      case 117 => 8 case 118 => 5 case 119 => 4 case 120 => 5 case 121 => 4 case 122 => 3 case 123 => 2
      case 124 => 1 case 125 | 126 => 0 case _ => 1)
  }

  function MpsNext(i: nat): int
    requires i < 128
  {
    if i < 32 then (
      match i
      case 0 => 2 case 1 => 3 case 2 => 4 case 3 => 5 case 4 => 6 case 5 => 7 case 6 => 8 case 7 => 9 case 8 => 10
      case 9 => 11 case 10 => 12 case 11 => 13 case 12 => 14 case 13 => 15 case 14 => 16 case 15 => 17
      case 16 => 18 case 17 => 19 case 18 => 20 case 19 => 21 case 20 => 22 case 21 => 23 case 22 => 24
      case 23 => 25 case 24 => 26 case 25 => 27 case 26 => 28 case 27 => 29 case 28 => 30 case 29 => 31
      case 30 => 32 case _ => 33)
    else if i < 64 then (
      match i
      case 32 => 34 case 33 => 35 case 34 => 36 case 35 => 37 case 36 => 38 case 37 => 39 case 38 => 40
      case 39 => 41 case 40 => 42 case 41 => 43 case 42 => 44 case 43 => 45 case 44 => 46 case 45 => 47
      case 46 => 48 case 47 => 49 case 48 => 50 case 49 => 51 case 50 => 52 case 51 => 53 case 52 => 54
      case 53 => 55 case 54 => 56 case 55 => 57 case 56 => 58 case 57 => 59 case 58 => 60 case 59 => 61
      case 60 => 62 case 61 => 63 case 62 => 64 case _ => 65)
    else if i < 96 then (
      match i
      case 64 => 66 case 65 => 67 case 66 => 68 case 67 => 69 case 68 => 70 case 69 => 71 case 70 => 72
      case 71 => 73 case 72 => 74 case 73 => 75 case 74 => 76 case 75 => 77 case 76 => 78 case 77 => 79
      case 78 => 80 case 79 => 81 case 80 => 82 case 81 => 83 case 82 => 84 case 83 => 85 case 84 => 86
      case 85 => 87 case 86 => 88 case 87 => 89 case 88 => 90 case 89 => 91 case 90 => 92 case 91 => 93
      case 92 => 94 case 93 => 95 case 94 => 96 case _ => 97)
    else (
      match i
      case 96 => 98 case 97 => 99 case 98 => 100 case 99 => 101 case 100 => 102 case 101 => 103 case 102 => 104
      case 103 => 105 case 104 => 106 case 105 => 107 case 106 => 108 case 107 => 109 case 108 => 110
      case 109 => 111 case 110 => 112 case 111 => 113 case 112 => 114 case 113 => 115 case 114 => 116
      case 115 => 117 case 116 => 118 case 117 => 119 case 118 => 120 case 119 => 121 case 120 => 122
      case 121 => 123 case 122 => 124 case 123 => 125 case 124 => 124 case 125 => 125 case 126 => 126
      case _ => 127)
  }

  // Table 9-44, one line for each pStateIdx.
  function RangeTabLps(pStateIdx: nat, qCodIRangeIdx: nat): int
    requires pStateIdx < 64 && qCodIRangeIdx < 4
  {
    if pStateIdx < 16 then (
      match pStateIdx
      case 0 => Pick(qCodIRangeIdx, 128, 176, 208, 240) case 1 => Pick(qCodIRangeIdx, 128, 167, 197, 227)
      case 2 => Pick(qCodIRangeIdx, 128, 158, 187, 216) case 3 => Pick(qCodIRangeIdx, 123, 150, 178, 205)
      case 4 => Pick(qCodIRangeIdx, 116, 142, 169, 195) case 5 => Pick(qCodIRangeIdx, 111, 135, 160, 185)
      case 6 => Pick(qCodIRangeIdx, 105, 128, 152, 175) case 7 => Pick(qCodIRangeIdx, 100, 122, 144, 166)
      case 8 => Pick(qCodIRangeIdx, 95, 116, 137, 158) case 9 => Pick(qCodIRangeIdx, 90, 110, 130, 150)
      case 10 => Pick(qCodIRangeIdx, 85, 104, 123, 142) case 11 => Pick(qCodIRangeIdx, 81, 99, 117, 135)
      case 12 => Pick(qCodIRangeIdx, 77, 94, 111, 128) case 13 => Pick(qCodIRangeIdx, 73, 89, 105, 122)
      case 14 => Pick(qCodIRangeIdx, 69, 85, 100, 116) case _ => Pick(qCodIRangeIdx, 66, 80, 95, 110))
    else if pStateIdx < 32 then (
      match pStateIdx
      case 16 => Pick(qCodIRangeIdx, 62, 76, 90, 104) case 17 => Pick(qCodIRangeIdx, 59, 72, 86, 99)
      case 18 => Pick(qCodIRangeIdx, 56, 69, 81, 94) case 19 => Pick(qCodIRangeIdx, 53, 65, 77, 89)
      case 20 => Pick(qCodIRangeIdx, 51, 62, 73, 85) case 21 => Pick(qCodIRangeIdx, 48, 59, 69, 80)
      case 22 => Pick(qCodIRangeIdx, 46, 56, 66, 76) case 23 => Pick(qCodIRangeIdx, 43, 53, 63, 72)
      case 24 => Pick(qCodIRangeIdx, 41, 50, 59, 69) case 25 => Pick(qCodIRangeIdx, 39, 48, 56, 65)
      case 26 => Pick(qCodIRangeIdx, 37, 45, 54, 62) case 27 => Pick(qCodIRangeIdx, 35, 43, 51, 59)
      case 28 => Pick(qCodIRangeIdx, 33, 41, 48, 56) case 29 => Pick(qCodIRangeIdx, 32, 39, 46, 53)
      case 30 => Pick(qCodIRangeIdx, 30, 37, 43, 50) case _ => Pick(qCodIRangeIdx, 29, 35, 41, 48))
    else if pStateIdx < 48 then (
      match pStateIdx
      case 32 => Pick(qCodIRangeIdx, 27, 33, 39, 45) case 33 => Pick(qCodIRangeIdx, 26, 31, 37, 43)
      case 34 => Pick(qCodIRangeIdx, 24, 30, 35, 41) case 35 => Pick(qCodIRangeIdx, 23, 28, 33, 39)
      case 36 => Pick(qCodIRangeIdx, 22, 27, 32, 37) case 37 => Pick(qCodIRangeIdx, 21, 26, 30, 35)
      case 38 => Pick(qCodIRangeIdx, 20, 24, 29, 33) case 39 => Pick(qCodIRangeIdx, 19, 23, 27, 31)
      case 40 => Pick(qCodIRangeIdx, 18, 22, 26, 30) case 41 => Pick(qCodIRangeIdx, 17, 21, 25, 28)
      case 42 => Pick(qCodIRangeIdx, 16, 20, 23, 27) case 43 => Pick(qCodIRangeIdx, 15, 19, 22, 25)
      case 44 => Pick(qCodIRangeIdx, 14, 18, 21, 24) case 45 => Pick(qCodIRangeIdx, 14, 17, 20, 23)
      case 46 => Pick(qCodIRangeIdx, 13, 16, 19, 22) case _ => Pick(qCodIRangeIdx, 12, 15, 18, 21))
    else (
      match pStateIdx
      case 48 => Pick(qCodIRangeIdx, 12, 14, 17, 20) case 49 => Pick(qCodIRangeIdx, 11, 14, 16, 19)
      case 50 => Pick(qCodIRangeIdx, 11, 13, 15, 18) case 51 => Pick(qCodIRangeIdx, 10, 12, 15, 17)
      case 52 => Pick(qCodIRangeIdx, 10, 12, 14, 16) case 53 => Pick(qCodIRangeIdx, 9, 11, 13, 15)
      case 54 => Pick(qCodIRangeIdx, 9, 11, 12, 14) case 55 => Pick(qCodIRangeIdx, 8, 10, 12, 14)
      case 56 => Pick(qCodIRangeIdx, 8, 9, 11, 13) case 57 => Pick(qCodIRangeIdx, 7, 9, 11, 12)
      case 58 => Pick(qCodIRangeIdx, 7, 9, 10, 12) case 59 => Pick(qCodIRangeIdx, 7, 8, 10, 11)
      case 60 => Pick(qCodIRangeIdx, 6, 8, 9, 11) case 61 => Pick(qCodIRangeIdx, 6, 7, 9, 10)
      case 62 => Pick(qCodIRangeIdx, 6, 7, 8, 9) case _ => Pick(qCodIRangeIdx, 2, 2, 2, 2))
  }

  function Pick(q: nat, a: int, b: int, c: int, d: int): int {
    match q
    case 0 => a
    case 1 => b
    case 2 => c
    case _ => d
  }

  // Table 9-45.
  function TransIdxLps(pStateIdx: nat): int
    requires pStateIdx < 64
  {
    if pStateIdx < 16 then (
      match pStateIdx
      case 0 | 1 => 0 case 2 => 1 case 3 | 4 => 2 case 5 | 6 => 4 case 7 => 5 case 8 => 6 case 9 => 7 case 10 => 8
      case 11 | 12 => 9 case 13 | 14 => 11 case _ => 12)
    else if pStateIdx < 32 then (
      match pStateIdx
      case 16 | 17 => 13 case 18 | 19 => 15 case 20 | 21 => 16 case 22 | 23 => 18 case 24 | 25 => 19
      case 26 | 27 => 21 case 28 | 29 => 22 case 30 => 23 case _ => 24)
    else if pStateIdx < 48 then (
      match pStateIdx
      case 32 => 24 case 33 => 25 case 34 | 35 => 26 case 36 | 37 => 27 case 38 => 28 case 39 | 40 => 29
      case 41 | 42 | 43 => 30 case 44 => 31 case 45 | 46 => 32 case _ => 33)
    else (
      match pStateIdx
      case 48 | 49 => 33 case 50 | 51 => 34 case 52 | 53 | 54 => 35 case 55 | 56 | 57 => 36
      case 58 | 59 | 60 => 37 case 61 | 62 => 38 case _ => 63)
  }

  function TransIdxMps(pStateIdx: nat): nat
    requires pStateIdx < 64
  {
    if pStateIdx < 62 then pStateIdx + 1 else pStateIdx
  }

  lemma LpsColumn0Part0(s: nat)
    requires 0 <= s <= 63
    ensures LpsColumn0(s) == RangeTabLps(s / 2, 0)
  {
  }

  lemma LpsColumn0Part1(s: nat)
    requires 64 <= s <= 125
    ensures LpsColumn0(s) == RangeTabLps(s / 2, 0)
  {
  }

  lemma LpsColumn1Part0(s: nat)
    requires 0 <= s <= 63
    ensures LpsColumn1(s) == RangeTabLps(s / 2, 1)
  {
  }

  lemma LpsColumn1Part1(s: nat)
    requires 64 <= s <= 125
    ensures LpsColumn1(s) == RangeTabLps(s / 2, 1)
  {
  }

  lemma LpsColumn2Part0(s: nat)
    requires 0 <= s <= 63
    ensures LpsColumn2(s) == RangeTabLps(s / 2, 2)
  {
  }

  lemma LpsColumn2Part1(s: nat)
    requires 64 <= s <= 125
    ensures LpsColumn2(s) == RangeTabLps(s / 2, 2)
  {
  }

  lemma LpsColumn3Part0(s: nat)
    requires 0 <= s <= 63
    ensures LpsColumn3(s) == RangeTabLps(s / 2, 3)
  {
  }

  lemma LpsColumn3Part1(s: nat)
    requires 64 <= s <= 125
    ensures LpsColumn3(s) == RangeTabLps(s / 2, 3)
  {
  }

  // The packed range table holds Table 9-44, each entry once for either most probable symbol.
  lemma PackedRangeTable(q: nat, s: nat)
    requires q < 4 && s <= 125
    ensures LpsRange(128 * q + s) == RangeTabLps(s / 2, q)
  {
    hide LpsColumn0, LpsColumn1, LpsColumn2, LpsColumn3, RangeTabLps;
    match q {
      case 0 => if s < 64 { LpsColumn0Part0(s); } else { LpsColumn0Part1(s); }
      case 1 => if s < 64 { LpsColumn1Part0(s); } else { LpsColumn1Part1(s); }
      case 2 => if s < 64 { LpsColumn2Part0(s); } else { LpsColumn2Part1(s); }
      case 3 => if s < 64 { LpsColumn3Part0(s); } else { LpsColumn3Part1(s); }
    }
  }

  // Whatever quarter the range lies in, the least probable part is neither empty nor all of it.
  lemma LpsRangeBounds(p: nat, q: nat)
    requires p <= 62 && q < 4
    ensures 6 <= RangeTabLps(p, q) <= 128 + 48 * q
  {
  }

  // The packed transition table holds Table 9-45; in state 0 a least probable symbol also
  // exchanges the symbols.
  lemma PackedMpsTransition(s: nat)
    requires s <= 125
    ensures MlpsState(128 + s) == 2 * TransIdxMps(s / 2) + s % 2
    ensures 0 <= MlpsState(128 + s) <= 125
  {
  }

  lemma PackedLpsTransition(s: nat)
    requires s <= 125
    ensures MlpsState(127 - s) == 2 * TransIdxLps(s / 2) + (if s / 2 == 0 then 1 - s % 2 else s % 2)
    ensures 0 <= MlpsState(127 - s) <= 125
  {
    hide LpsNext, TransIdxLps;
    match s / 16 {
      case 0 => LpsNextPart0(s);
      case 1 => LpsNextPart1(s);
      case 2 => LpsNextPart2(s);
      case 3 => LpsNextPart3(s);
      case 4 => LpsNextPart4(s);
      case 5 => LpsNextPart5(s);
      case 6 => LpsNextPart6(s);
      case 7 => LpsNextPart7(s);
    }
  }

  lemma LpsNextPart0(s: nat)
    requires 0 <= s <= 15
    ensures LpsNext(127 - s) == 2 * TransIdxLps(s / 2) + (if s / 2 == 0 then 1 - s % 2 else s % 2)
    ensures 0 <= LpsNext(127 - s) <= 125
  {
  }

  lemma LpsNextPart1(s: nat)
    requires 16 <= s <= 31
    ensures LpsNext(127 - s) == 2 * TransIdxLps(s / 2) + s % 2
    ensures 0 <= LpsNext(127 - s) <= 125
  {
  }

  lemma LpsNextPart2(s: nat)
    requires 32 <= s <= 47
    ensures LpsNext(127 - s) == 2 * TransIdxLps(s / 2) + s % 2
    ensures 0 <= LpsNext(127 - s) <= 125
  {
  }

  lemma LpsNextPart3(s: nat)
    requires 48 <= s <= 63
    ensures LpsNext(127 - s) == 2 * TransIdxLps(s / 2) + s % 2
    ensures 0 <= LpsNext(127 - s) <= 125
  {
  }

  lemma LpsNextPart4(s: nat)
    requires 64 <= s <= 79
    ensures LpsNext(127 - s) == 2 * TransIdxLps(s / 2) + s % 2
    ensures 0 <= LpsNext(127 - s) <= 125
  {
  }

  lemma LpsNextPart5(s: nat)
    requires 80 <= s <= 95
    ensures LpsNext(127 - s) == 2 * TransIdxLps(s / 2) + s % 2
    ensures 0 <= LpsNext(127 - s) <= 125
  {
  }

  lemma LpsNextPart6(s: nat)
    requires 96 <= s <= 111
    ensures LpsNext(127 - s) == 2 * TransIdxLps(s / 2) + s % 2
    ensures 0 <= LpsNext(127 - s) <= 125
  {
  }

  lemma LpsNextPart7(s: nat)
    requires 112 <= s <= 125
    ensures LpsNext(127 - s) == 2 * TransIdxLps(s / 2) + s % 2
    ensures 0 <= LpsNext(127 - s) <= 125
  {
  }

  lemma TransIdxLpsBound(p: nat)
    requires p <= 62
    ensures 0 <= TransIdxLps(p) <= 38
  {
  }

  lemma NormShiftBounds(range: nat)
    requires 1 <= range < 512
    ensures NormShift(range) <= 8 && 256 <= range * Pow2(NormShift(range)) < 512
    ensures range >= 6 ==> NormShift(range) <= 6
    ensures range <= 510 ==> range * Pow2(NormShift(range)) <= 510
  {
    Pow2Small();
  }
}
