// No code of a CAVLC table is a prefix of another one of the same table.
module CavlcPrefix {
  import opened CavlcTables

  // 2^(16 - length).
  function Weight(length: int): int
  {
    match length
    case 1 => 32768
    case 2 => 16384
    case 3 => 8192
    case 4 => 4096
    case 5 => 2048
    case 6 => 1024
    case 7 => 512
    case 8 => 256
    case 9 => 128
    case 10 => 64
    case 11 => 32
    case 12 => 16
    case 13 => 8
    case 14 => 4
    case 15 => 2
    case 16 => 1
    case _ => 0
  }

  // The sixteen-bit windows that begin with the code of a symbol.
  function Low(id: CodeId, symbol: nat): int
  {
    CodeBits(id, symbol) * Weight(CodeLen(id, symbol))
  }

  function High(id: CodeId, symbol: nat): int
  {
    (CodeBits(id, symbol) + 1) * Weight(CodeLen(id, symbol))
  }

  // Decoding by one comparison per code, from the smallest window on.

  function CoeffTokenOwner0(window: int): int
  {
    if window < 4 then 53 else if window < 5 then 64 else if window < 6 then 66 else
    if window < 7 then 65 else if window < 8 then 60 else if window < 9 then 67 else
    if window < 10 then 62 else if window < 11 then 61 else if window < 12 then 56 else
    if window < 13 then 63 else if window < 14 then 58 else if window < 15 then 57 else
    if window < 16 then 52 else if window < 18 then 59 else if window < 20 then 54 else
    if window < 22 then 49 else if window < 24 then 48 else if window < 26 then 55 else
    if window < 28 then 50 else if window < 30 then 45 else if window < 32 then 44 else
    if window < 36 then 51 else if window < 40 then 46 else if window < 44 then 41 else
    if window < 48 then 40 else if window < 52 then 47 else if window < 56 then 42 else
    if window < 60 then 37 else if window < 64 then 36 else if window < 72 then 32 else
    if window < 80 then 38 else if window < 88 then 33 else if window < 96 then 28 else
    if window < 104 then 43 else if window < 112 then 34 else if window < 120 then 29 else
    if window < 128 then 24 else if window < 160 then 39 else if window < 192 then 30 else
    if window < 224 then 25 else if window < 256 then 20 else if window < 320 then 35 else
    if window < 384 then 26 else if window < 448 then 21 else if window < 512 then 16 else
    if window < 640 then 31 else if window < 768 then 22 else if window < 896 then 17 else
    if window < 1024 then 12 else if window < 1280 then 27 else if window < 1536 then 18 else
    if window < 1792 then 13 else if window < 2048 then 8 else if window < 2560 then 23 else
    if window < 3072 then 14 else if window < 4096 then 19 else if window < 5120 then 9 else
    if window < 6144 then 4 else if window < 8192 then 15 else if window < 16384 then 10 else
    if window < 32768 then 5 else if window < 65536 then 0 else -1
  }

  lemma CoeffToken0Owned(symbol: nat, window: int)
    requires CoeffTokenLen0(symbol) > 0
    requires CoeffTokenBits0(symbol) * Weight(CoeffTokenLen0(symbol)) <= window < (CoeffTokenBits0(symbol)
      + 1) * Weight(CoeffTokenLen0(symbol))
    ensures CoeffTokenOwner0(window) == symbol && symbol < 68 && 1 <= CoeffTokenLen0(symbol) <= 16
    ensures 0 <= CoeffTokenBits0(symbol) && (CoeffTokenBits0(symbol) + 1) * Weight(CoeffTokenLen0(symbol)) <= 65536
  {
  }

  function CoeffTokenOwner1(window: int): int
  {
    if window < 16 then 63 else if window < 20 then 67 else if window < 24 then 66 else
    if window < 28 then 65 else if window < 32 then 64 else if window < 36 then 61 else
    if window < 40 then 60 else if window < 44 then 62 else if window < 48 then 57 else
    if window < 56 then 58 else if window < 64 then 56 else if window < 72 then 59 else
    if window < 80 then 54 else if window < 88 then 53 else if window < 96 then 52 else
    if window < 104 then 55 else if window < 112 then 50 else if window < 120 then 49 else
    if window < 128 then 48 else if window < 144 then 44 else if window < 160 then 46 else
    if window < 176 then 45 else if window < 192 then 40 else if window < 208 then 51 else
    if window < 224 then 42 else if window < 240 then 41 else if window < 256 then 36 else
    if window < 288 then 47 else if window < 320 then 38 else if window < 352 then 37 else
    if window < 384 then 32 else if window < 416 then 43 else if window < 448 then 34 else
    if window < 480 then 33 else if window < 512 then 28 else if window < 640 then 39 else
    if window < 768 then 30 else if window < 896 then 29 else if window < 1024 then 24 else
    if window < 1280 then 20 else if window < 1536 then 26 else if window < 1792 then 25 else
    if window < 2048 then 16 else if window < 2560 then 35 else if window < 3072 then 22 else
    if window < 3584 then 21 else if window < 4096 then 12 else if window < 5120 then 31 else
    if window < 6144 then 18 else if window < 7168 then 17 else if window < 8192 then 8 else
    if window < 9216 then 27 else if window < 10240 then 14 else if window < 11264 then 13 else
    if window < 12288 then 4 else if window < 14336 then 23 else if window < 16384 then 9 else
    if window < 20480 then 19 else if window < 24576 then 15 else if window < 32768 then 10 else
    if window < 49152 then 5 else if window < 65536 then 0 else -1
  }

  lemma CoeffToken1Owned(symbol: nat, window: int)
    requires CoeffTokenLen1(symbol) > 0
    requires CoeffTokenBits1(symbol) * Weight(CoeffTokenLen1(symbol)) <= window < (CoeffTokenBits1(symbol)
      + 1) * Weight(CoeffTokenLen1(symbol))
    ensures CoeffTokenOwner1(window) == symbol && symbol < 68 && 1 <= CoeffTokenLen1(symbol) <= 16
    ensures 0 <= CoeffTokenBits1(symbol) && (CoeffTokenBits1(symbol) + 1) * Weight(CoeffTokenLen1(symbol)) <= 65536
  {
  }

  function CoeffTokenOwner2(window: int): int
  {
    if window < 128 then 64 else if window < 192 then 67 else if window < 256 then 66 else
    if window < 320 then 65 else if window < 384 then 60 else if window < 448 then 63 else
    if window < 512 then 62 else if window < 576 then 61 else if window < 640 then 56 else
    if window < 704 then 59 else if window < 768 then 58 else if window < 832 then 57 else
    if window < 896 then 52 else if window < 1024 then 53 else if window < 1152 then 48 else
    if window < 1280 then 54 else if window < 1408 then 49 else if window < 1536 then 44 else
    if window < 1664 then 55 else if window < 1792 then 50 else if window < 1920 then 45 else
    if window < 2048 then 40 else if window < 2304 then 51 else if window < 2560 then 46 else
    if window < 2816 then 41 else if window < 3072 then 36 else if window < 3328 then 47 else
    if window < 3584 then 42 else if window < 3840 then 37 else if window < 4096 then 32 else
    if window < 4608 then 28 else if window < 5120 then 24 else if window < 5632 then 38 else
    if window < 6144 then 20 else if window < 6656 then 43 else if window < 7168 then 34 else
    if window < 7680 then 33 else if window < 8192 then 16 else if window < 9216 then 12 else
    if window < 10240 then 30 else if window < 11264 then 29 else if window < 12288 then 8 else
    if window < 13312 then 39 else if window < 14336 then 26 else if window < 15360 then 25 else
    if window < 16384 then 4 else if window < 18432 then 21 else if window < 20480 then 22 else
    if window < 22528 then 17 else if window < 24576 then 18 else if window < 26624 then 13 else
    if window < 28672 then 35 else if window < 30720 then 14 else if window < 32768 then 9 else
    if window < 36864 then 31 else if window < 40960 then 27 else if window < 45056 then 23 else
    if window < 49152 then 19 else if window < 53248 then 15 else if window < 57344 then 10 else
    if window < 61440 then 5 else if window < 65536 then 0 else -1
  }

  lemma CoeffToken2Owned(symbol: nat, window: int)
    requires CoeffTokenLen2(symbol) > 0
    requires CoeffTokenBits2(symbol) * Weight(CoeffTokenLen2(symbol)) <= window < (CoeffTokenBits2(symbol)
      + 1) * Weight(CoeffTokenLen2(symbol))
    ensures CoeffTokenOwner2(window) == symbol && symbol < 68 && 1 <= CoeffTokenLen2(symbol) <= 16
    ensures 0 <= CoeffTokenBits2(symbol) && (CoeffTokenBits2(symbol) + 1) * Weight(CoeffTokenLen2(symbol)) <= 65536
  {
  }

  function CoeffTokenOwner3(window: int): int
  {
    if window < 1024 then 4 else if window < 2048 then 5 else if window < 4096 then 0 else
    if window < 5120 then 8 else if window < 6144 then 9 else if window < 7168 then 10 else
    if window < 9216 then 12 else if window < 10240 then 13 else if window < 11264 then 14 else
    if window < 12288 then 15 else if window < 13312 then 16 else if window < 14336 then 17 else
    if window < 15360 then 18 else if window < 16384 then 19 else if window < 17408 then 20 else
    if window < 18432 then 21 else if window < 19456 then 22 else if window < 20480 then 23 else
    if window < 21504 then 24 else if window < 22528 then 25 else if window < 23552 then 26 else
    if window < 24576 then 27 else if window < 25600 then 28 else if window < 26624 then 29 else
    if window < 27648 then 30 else if window < 28672 then 31 else if window < 29696 then 32 else
    if window < 30720 then 33 else if window < 31744 then 34 else if window < 32768 then 35 else
    if window < 33792 then 36 else if window < 34816 then 37 else if window < 35840 then 38 else
    if window < 36864 then 39 else if window < 37888 then 40 else if window < 38912 then 41 else
    if window < 39936 then 42 else if window < 40960 then 43 else if window < 41984 then 44 else
    if window < 43008 then 45 else if window < 44032 then 46 else if window < 45056 then 47 else
    if window < 46080 then 48 else if window < 47104 then 49 else if window < 48128 then 50 else
    if window < 49152 then 51 else if window < 50176 then 52 else if window < 51200 then 53 else
    if window < 52224 then 54 else if window < 53248 then 55 else if window < 54272 then 56 else
    if window < 55296 then 57 else if window < 56320 then 58 else if window < 57344 then 59 else
    if window < 58368 then 60 else if window < 59392 then 61 else if window < 60416 then 62 else
    if window < 61440 then 63 else if window < 62464 then 64 else if window < 63488 then 65 else
    if window < 64512 then 66 else if window < 65536 then 67 else -1
  }

  lemma CoeffToken3Owned(symbol: nat, window: int)
    requires CoeffTokenLen3(symbol) > 0
    requires CoeffTokenBits3(symbol) * Weight(CoeffTokenLen3(symbol)) <= window < (CoeffTokenBits3(symbol)
      + 1) * Weight(CoeffTokenLen3(symbol))
    ensures CoeffTokenOwner3(window) == symbol && symbol < 68 && 1 <= CoeffTokenLen3(symbol) <= 16
    ensures 0 <= CoeffTokenBits3(symbol) && (CoeffTokenBits3(symbol) + 1) * Weight(CoeffTokenLen3(symbol)) <= 65536
  {
  }

  function ChromaDcTokenOwner(window: int): int
  {
    if window < 512 then 19 else if window < 768 then 18 else if window < 1024 then 17 else
    if window < 1536 then 14 else if window < 2048 then 13 else if window < 3072 then 16 else
    if window < 4096 then 12 else if window < 5120 then 8 else if window < 6144 then 15 else
    if window < 7168 then 9 else if window < 8192 then 4 else if window < 16384 then 10 else
    if window < 32768 then 0 else if window < 65536 then 5 else -1
  }

  lemma ChromaDcTokenOwned(symbol: nat, window: int)
    requires ChromaDcTokenLen(symbol) > 0
    requires ChromaDcTokenBits(symbol) * Weight(ChromaDcTokenLen(symbol)) <= window < (ChromaDcTokenBits(symbol)
      + 1) * Weight(ChromaDcTokenLen(symbol))
    ensures ChromaDcTokenOwner(window) == symbol && symbol < 20 && 1 <= ChromaDcTokenLen(symbol) <= 16
    ensures 0 <= ChromaDcTokenBits(symbol)
      && (ChromaDcTokenBits(symbol) + 1) * Weight(ChromaDcTokenLen(symbol)) <= 65536
  {
  }

  function Chroma422DcTokenOwner(window: int): int
  {
    if window < 64 then 32 else if window < 80 then 34 else if window < 96 then 33 else
    if window < 112 then 29 else if window < 128 then 28 else if window < 160 then 35 else
    if window < 192 then 30 else if window < 224 then 25 else if window < 256 then 24 else
    if window < 320 then 31 else if window < 384 then 26 else if window < 448 then 21 else
    if window < 512 then 20 else if window < 640 then 22 else if window < 768 then 17 else
    if window < 896 then 16 else if window < 1024 then 12 else if window < 2048 then 19 else
    if window < 4096 then 15 else if window < 4608 then 27 else if window < 5120 then 23 else
    if window < 5632 then 18 else if window < 6144 then 14 else if window < 6656 then 13 else
    if window < 7168 then 9 else if window < 7680 then 8 else if window < 8192 then 4 else
    if window < 16384 then 10 else if window < 32768 then 5 else if window < 65536 then 0 else -1
  }

  lemma Chroma422DcTokenOwned(symbol: nat, window: int)
    requires Chroma422DcTokenLen(symbol) > 0
    requires var w := Weight(Chroma422DcTokenLen(symbol));
      Chroma422DcTokenBits(symbol) * w <= window < (Chroma422DcTokenBits(symbol) + 1) * w
    ensures Chroma422DcTokenOwner(window) == symbol && symbol < 36 && 1 <= Chroma422DcTokenLen(symbol) <= 16
    ensures 0 <= Chroma422DcTokenBits(symbol)
      && (Chroma422DcTokenBits(symbol) + 1) * Weight(Chroma422DcTokenLen(symbol)) <= 65536
  {
  }

  function TotalZerosOwner0(window: int): int
  {
    if window < 256 then 15 else if window < 384 then 14 else if window < 512 then 13 else
    if window < 768 then 12 else if window < 1024 then 11 else if window < 1536 then 10 else
    if window < 2048 then 9 else if window < 3072 then 8 else if window < 4096 then 7 else
    if window < 6144 then 6 else if window < 8192 then 5 else if window < 12288 then 4 else
    if window < 16384 then 3 else if window < 24576 then 2 else if window < 32768 then 1 else
    if window < 65536 then 0 else -1
  }

  function TotalZerosOwner1(window: int): int
  {
    if window < 1024 then 14 else if window < 2048 then 13 else if window < 3072 then 12 else
    if window < 4096 then 11 else if window < 6144 then 10 else if window < 8192 then 9 else
    if window < 12288 then 8 else if window < 16384 then 7 else if window < 20480 then 6 else
    if window < 24576 then 5 else if window < 32768 then 4 else if window < 40960 then 3 else
    if window < 49152 then 2 else if window < 57344 then 1 else if window < 65536 then 0 else -1
  }

  function TotalZerosOwner2(window: int): int
  {
    if window < 1024 then 13 else if window < 2048 then 11 else if window < 4096 then 12 else
    if window < 6144 then 10 else if window < 8192 then 9 else if window < 12288 then 8 else
    if window < 16384 then 5 else if window < 20480 then 4 else if window < 24576 then 0 else
    if window < 32768 then 7 else if window < 40960 then 6 else if window < 49152 then 3 else
    if window < 57344 then 2 else if window < 65536 then 1 else -1
  }

  function TotalZerosOwner3(window: int): int
  {
    if window < 2048 then 12 else if window < 4096 then 11 else if window < 6144 then 10 else
    if window < 8192 then 0 else if window < 12288 then 9 else if window < 16384 then 7 else
    if window < 20480 then 3 else if window < 24576 then 2 else if window < 32768 then 8 else
    if window < 40960 then 6 else if window < 49152 then 5 else if window < 57344 then 4 else
    if window < 65536 then 1 else -1
  }

  function TotalZerosOwner4(window: int): int
  {
    if window < 2048 then 11 else if window < 4096 then 9 else if window < 8192 then 10 else
    if window < 12288 then 8 else if window < 16384 then 2 else if window < 20480 then 1 else
    if window < 24576 then 0 else if window < 32768 then 7 else if window < 40960 then 6 else
    if window < 49152 then 5 else if window < 57344 then 4 else if window < 65536 then 3 else -1
  }

  function TotalZerosOwner5(window: int): int
  {
    if window < 1024 then 10 else if window < 2048 then 0 else if window < 4096 then 1 else
    if window < 8192 then 8 else if window < 16384 then 9 else if window < 24576 then 7 else
    if window < 32768 then 6 else if window < 40960 then 5 else if window < 49152 then 4 else
    if window < 57344 then 3 else if window < 65536 then 2 else -1
  }

  function TotalZerosOwner6(window: int): int
  {
    if window < 1024 then 9 else if window < 2048 then 0 else if window < 4096 then 1 else
    if window < 8192 then 7 else if window < 16384 then 8 else if window < 24576 then 6 else
    if window < 32768 then 4 else if window < 40960 then 3 else if window < 49152 then 2 else
    if window < 65536 then 5 else -1
  }

  function TotalZerosOwner7(window: int): int
  {
    if window < 1024 then 8 else if window < 2048 then 0 else if window < 4096 then 2 else
    if window < 8192 then 1 else if window < 16384 then 7 else if window < 24576 then 6 else
    if window < 32768 then 3 else if window < 49152 then 5 else if window < 65536 then 4 else -1
  }

  function TotalZerosOwner8(window: int): int
  {
    if window < 1024 then 1 else if window < 2048 then 0 else if window < 4096 then 7 else
    if window < 8192 then 2 else if window < 16384 then 5 else if window < 32768 then 6 else
    if window < 49152 then 4 else if window < 65536 then 3 else -1
  }

  function TotalZerosOwner9(window: int): int
  {
    if window < 2048 then 1 else if window < 4096 then 0 else if window < 8192 then 6 else
    if window < 16384 then 2 else if window < 32768 then 5 else if window < 49152 then 4 else
    if window < 65536 then 3 else -1
  }

  function TotalZerosOwner10(window: int): int
  {
    if window < 4096 then 0 else if window < 8192 then 1 else if window < 16384 then 2 else
    if window < 24576 then 3 else if window < 32768 then 5 else if window < 65536 then 4 else -1
  }

  function TotalZerosOwner11(window: int): int
  {
    if window < 4096 then 0 else if window < 8192 then 1 else if window < 16384 then 4 else
    if window < 32768 then 2 else if window < 65536 then 3 else -1
  }

  function TotalZerosOwner12(window: int): int
  {
    if window < 8192 then 0 else if window < 16384 then 1 else if window < 32768 then 3 else
    if window < 65536 then 2 else -1
  }

  function TotalZerosOwner13(window: int): int
  {
    if window < 16384 then 0 else if window < 32768 then 1 else if window < 65536 then 2 else -1
  }

  function TotalZerosOwner14(window: int): int
  {
    if window < 32768 then 0 else if window < 65536 then 1 else -1
  }

  function ChromaDcTotalZerosOwner0(window: int): int
  {
    if window < 8192 then 3 else if window < 16384 then 2 else if window < 32768 then 1 else
    if window < 65536 then 0 else -1
  }

  function ChromaDcTotalZerosOwner1(window: int): int
  {
    if window < 16384 then 2 else if window < 32768 then 1 else if window < 65536 then 0 else -1
  }

  function ChromaDcTotalZerosOwner2(window: int): int
  {
    if window < 32768 then 1 else if window < 65536 then 0 else -1
  }

  function Chroma422DcTotalZerosOwner0(window: int): int
  {
    if window < 2048 then 7 else if window < 4096 then 6 else if window < 8192 then 5 else
    if window < 12288 then 3 else if window < 16384 then 4 else if window < 24576 then 1 else
    if window < 32768 then 2 else if window < 65536 then 0 else -1
  }

  function Chroma422DcTotalZerosOwner1(window: int): int
  {
    if window < 8192 then 0 else if window < 16384 then 2 else if window < 32768 then 1 else
    if window < 40960 then 3 else if window < 49152 then 4 else if window < 57344 then 5 else
    if window < 65536 then 6 else -1
  }

  function Chroma422DcTotalZerosOwner2(window: int): int
  {
    if window < 8192 then 0 else if window < 16384 then 1 else if window < 32768 then 2 else
    if window < 49152 then 3 else if window < 57344 then 4 else if window < 65536 then 5 else -1
  }

  function Chroma422DcTotalZerosOwner3(window: int): int
  {
    if window < 16384 then 1 else if window < 32768 then 2 else if window < 49152 then 3 else
    if window < 57344 then 0 else if window < 65536 then 4 else -1
  }

  function Chroma422DcTotalZerosOwner4(window: int): int
  {
    if window < 16384 then 0 else if window < 32768 then 1 else if window < 49152 then 2 else
    if window < 65536 then 3 else -1
  }

  function Chroma422DcTotalZerosOwner5(window: int): int
  {
    if window < 16384 then 0 else if window < 32768 then 1 else if window < 65536 then 2 else -1
  }

  function Chroma422DcTotalZerosOwner6(window: int): int
  {
    if window < 32768 then 0 else if window < 65536 then 1 else -1
  }

  function RunOwner0(window: int): int
  {
    if window < 32768 then 1 else if window < 65536 then 0 else -1
  }

  function RunOwner1(window: int): int
  {
    if window < 16384 then 2 else if window < 32768 then 1 else if window < 65536 then 0 else -1
  }

  function RunOwner2(window: int): int
  {
    if window < 16384 then 3 else if window < 32768 then 2 else if window < 49152 then 1 else
    if window < 65536 then 0 else -1
  }

  function RunOwner3(window: int): int
  {
    if window < 8192 then 4 else if window < 16384 then 3 else if window < 32768 then 2 else
    if window < 49152 then 1 else if window < 65536 then 0 else -1
  }

  function RunOwner4(window: int): int
  {
    if window < 8192 then 5 else if window < 16384 then 4 else if window < 24576 then 3 else
    if window < 32768 then 2 else if window < 49152 then 1 else if window < 65536 then 0 else -1
  }

  function RunOwner5(window: int): int
  {
    if window < 8192 then 1 else if window < 16384 then 2 else if window < 24576 then 4 else
    if window < 32768 then 3 else if window < 40960 then 6 else if window < 49152 then 5 else
    if window < 65536 then 0 else -1
  }

  function RunOwner6(window: int): int
  {
    if window < 64 then 14 else if window < 128 then 13 else if window < 256 then 12 else
    if window < 512 then 11 else if window < 1024 then 10 else if window < 2048 then 9 else
    if window < 4096 then 8 else if window < 8192 then 7 else if window < 16384 then 6 else
    if window < 24576 then 5 else if window < 32768 then 4 else if window < 40960 then 3 else
    if window < 49152 then 2 else if window < 57344 then 1 else if window < 65536 then 0 else -1
  }

  function CoeffTokenOwner(row: nat, window: int): int
  {
    match row
    case 0 => CoeffTokenOwner0(window)
    case 1 => CoeffTokenOwner1(window)
    case 2 => CoeffTokenOwner2(window)
    case 3 => CoeffTokenOwner3(window)
    case _ => -1
  }

  function TotalZerosOwner(row: nat, window: int): int
  {
    match row
    case 0 => TotalZerosOwner0(window)
    case 1 => TotalZerosOwner1(window)
    case 2 => TotalZerosOwner2(window)
    case 3 => TotalZerosOwner3(window)
    case 4 => TotalZerosOwner4(window)
    case 5 => TotalZerosOwner5(window)
    case 6 => TotalZerosOwner6(window)
    case 7 => TotalZerosOwner7(window)
    case 8 => TotalZerosOwner8(window)
    case 9 => TotalZerosOwner9(window)
    case 10 => TotalZerosOwner10(window)
    case 11 => TotalZerosOwner11(window)
    case 12 => TotalZerosOwner12(window)
    case 13 => TotalZerosOwner13(window)
    case 14 => TotalZerosOwner14(window)
    case _ => -1
  }

  function ChromaDcTotalZerosOwner(row: nat, window: int): int
  {
    match row
    case 0 => ChromaDcTotalZerosOwner0(window)
    case 1 => ChromaDcTotalZerosOwner1(window)
    case 2 => ChromaDcTotalZerosOwner2(window)
    case _ => -1
  }

  function Chroma422DcTotalZerosOwner(row: nat, window: int): int
  {
    match row
    case 0 => Chroma422DcTotalZerosOwner0(window)
    case 1 => Chroma422DcTotalZerosOwner1(window)
    case 2 => Chroma422DcTotalZerosOwner2(window)
    case 3 => Chroma422DcTotalZerosOwner3(window)
    case 4 => Chroma422DcTotalZerosOwner4(window)
    case 5 => Chroma422DcTotalZerosOwner5(window)
    case 6 => Chroma422DcTotalZerosOwner6(window)
    case _ => -1
  }

  function RunOwner(row: nat, window: int): int
  {
    match row
    case 0 => RunOwner0(window)
    case 1 => RunOwner1(window)
    case 2 => RunOwner2(window)
    case 3 => RunOwner3(window)
    case 4 => RunOwner4(window)
    case 5 => RunOwner5(window)
    case 6 => RunOwner6(window)
    case _ => -1
  }

  lemma CoeffTokenRowOwned(row: nat, symbol: nat, window: int)
    requires CoeffTokenLen(row, symbol) > 0
    requires CoeffTokenBits(row, symbol) * Weight(CoeffTokenLen(row, symbol)) <= window
    requires window < (CoeffTokenBits(row, symbol) + 1) * Weight(CoeffTokenLen(row, symbol))
    ensures CoeffTokenOwner(row, window) == symbol && symbol < 68 && 1 <= CoeffTokenLen(row, symbol) <= 16
    ensures 0 <= CoeffTokenBits(row, symbol)
      && (CoeffTokenBits(row, symbol) + 1) * Weight(CoeffTokenLen(row, symbol)) <= 65536
  {
    hide Weight, CoeffTokenLen0, CoeffTokenBits0, CoeffTokenOwner0, CoeffTokenLen1, CoeffTokenBits1, CoeffTokenOwner1,
      CoeffTokenLen2, CoeffTokenBits2, CoeffTokenOwner2, CoeffTokenLen3, CoeffTokenBits3, CoeffTokenOwner3;
    match row {
      case 0 => CoeffToken0Owned(symbol, window);
      case 1 => CoeffToken1Owned(symbol, window);
      case 2 => CoeffToken2Owned(symbol, window);
      case 3 => CoeffToken3Owned(symbol, window);
      case _ =>
    }
  }

  lemma TotalZerosRowOwned(row: nat, symbol: nat, window: int)
    requires TotalZerosLen(row, symbol) > 0
    requires TotalZerosBits(row, symbol) * Weight(TotalZerosLen(row, symbol)) <= window
    requires window < (TotalZerosBits(row, symbol) + 1) * Weight(TotalZerosLen(row, symbol))
    ensures TotalZerosOwner(row, window) == symbol && symbol < 16 && 1 <= TotalZerosLen(row, symbol) <= 16
    ensures 0 <= TotalZerosBits(row, symbol)
      && (TotalZerosBits(row, symbol) + 1) * Weight(TotalZerosLen(row, symbol)) <= 65536
  {
  }

  lemma ChromaDcTotalZerosRowOwned(row: nat, symbol: nat, window: int)
    requires ChromaDcTotalZerosLen(row, symbol) > 0
    requires ChromaDcTotalZerosBits(row, symbol) * Weight(ChromaDcTotalZerosLen(row, symbol)) <= window
    requires window < (ChromaDcTotalZerosBits(row, symbol) + 1) * Weight(ChromaDcTotalZerosLen(row, symbol))
    ensures ChromaDcTotalZerosOwner(row, window) == symbol && symbol < 4
      && 1 <= ChromaDcTotalZerosLen(row, symbol) <= 16
    ensures 0 <= ChromaDcTotalZerosBits(row, symbol)
      && (ChromaDcTotalZerosBits(row, symbol) + 1) * Weight(ChromaDcTotalZerosLen(row, symbol)) <= 65536
  {
  }

  lemma Chroma422DcTotalZerosRowOwned(row: nat, symbol: nat, window: int)
    requires Chroma422DcTotalZerosLen(row, symbol) > 0
    requires Chroma422DcTotalZerosBits(row, symbol) * Weight(Chroma422DcTotalZerosLen(row, symbol)) <= window
    requires window < (Chroma422DcTotalZerosBits(row, symbol) + 1) * Weight(Chroma422DcTotalZerosLen(row, symbol))
    ensures Chroma422DcTotalZerosOwner(row, window) == symbol && symbol < 8
      && 1 <= Chroma422DcTotalZerosLen(row, symbol) <= 16
    ensures 0 <= Chroma422DcTotalZerosBits(row, symbol)
      && (Chroma422DcTotalZerosBits(row, symbol) + 1) * Weight(Chroma422DcTotalZerosLen(row, symbol)) <= 65536
  {
  }

  lemma RunRowOwned(row: nat, symbol: nat, window: int)
    requires RunLen(row, symbol) > 0
    requires RunBits(row, symbol) * Weight(RunLen(row, symbol)) <= window
    requires window < (RunBits(row, symbol) + 1) * Weight(RunLen(row, symbol))
    ensures RunOwner(row, window) == symbol && symbol < 16 && 1 <= RunLen(row, symbol) <= 16
    ensures 0 <= RunBits(row, symbol) && (RunBits(row, symbol) + 1) * Weight(RunLen(row, symbol)) <= 65536
  {
  }

  function Owner(id: CodeId, window: int): int
  {
    match id
    case CoeffToken(row) => CoeffTokenOwner(row, window)
    case ChromaDcToken => ChromaDcTokenOwner(window)
    case Chroma422DcToken => Chroma422DcTokenOwner(window)
    case TotalZeros(row) => TotalZerosOwner(row, window)
    case ChromaDcTotalZeros(row) => ChromaDcTotalZerosOwner(row, window)
    case Chroma422DcTotalZeros(row) => Chroma422DcTotalZerosOwner(row, window)
    case Run(row) => RunOwner(row, window)
  }

  // Every window belongs to at most one symbol.
  lemma Owned(id: CodeId, symbol: nat, window: int)
    requires id.Valid() && CodeLen(id, symbol) > 0
    requires Low(id, symbol) <= window < High(id, symbol)
    ensures Owner(id, window) == symbol && symbol < id.Symbols() && 1 <= CodeLen(id, symbol) <= 16
    ensures 0 <= CodeBits(id, symbol) && High(id, symbol) <= 65536
  {
    hide Weight, CoeffTokenLen, CoeffTokenBits, CoeffTokenOwner, ChromaDcTokenLen, ChromaDcTokenBits,
      ChromaDcTokenOwner, Chroma422DcTokenLen, Chroma422DcTokenBits, Chroma422DcTokenOwner, TotalZerosLen,
        TotalZerosBits, TotalZerosOwner, ChromaDcTotalZerosLen, ChromaDcTotalZerosBits, ChromaDcTotalZerosOwner,
          Chroma422DcTotalZerosLen, Chroma422DcTotalZerosBits, Chroma422DcTotalZerosOwner, RunLen, RunBits, RunOwner;
    match id {
      case CoeffToken(row) => CoeffTokenRowOwned(row, symbol, window);
      case ChromaDcToken => ChromaDcTokenOwned(symbol, window);
      case Chroma422DcToken => Chroma422DcTokenOwned(symbol, window);
      case TotalZeros(row) => TotalZerosRowOwned(row, symbol, window);
      case ChromaDcTotalZeros(row) => ChromaDcTotalZerosRowOwned(row, symbol, window);
      case Chroma422DcTotalZeros(row) => Chroma422DcTotalZerosRowOwned(row, symbol, window);
      case Run(row) => RunRowOwned(row, symbol, window);
    }
  }
}
