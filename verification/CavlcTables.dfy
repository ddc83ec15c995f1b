// The variable length codes of CAVLC: for every symbol its length, zero where it has none, and
// its bits, as the decoder's tables list them.
module CavlcTables {

  function CoeffTokenLen0(symbol: nat): nat
  {
    if symbol < 8 then
      (match symbol case 0 => 1 case 4 => 6 case 5 => 2 case _ => 0)
    else if symbol < 16 then
      (match symbol case 8 => 8 case 9 => 6 case 10 => 3 case 12 => 9 case 13 => 8 case 14 => 7 case 15 => 5
       case _ => 0)
    else if symbol < 24 then
      (match symbol case 16 => 10 case 17 => 9 case 18 => 8 case 19 => 6 case 20 => 11 case 21 => 10 case 22 => 9
       case 23 => 7 case _ => 0)
    else if symbol < 32 then
      (match symbol case 24 => 13 case 25 => 11 case 26 => 10 case 27 => 8 case 28 => 13 case 29 => 13 case 30 => 11
       case 31 => 9 case _ => 0)
    else if symbol < 40 then
      (match symbol case 32 => 13 case 33 => 13 case 34 => 13 case 35 => 10 case 36 => 14 case 37 => 14 case 38 => 13
       case 39 => 11 case _ => 0)
    else if symbol < 48 then
      (match symbol case 40 => 14 case 41 => 14 case 42 => 14 case 43 => 13 case 44 => 15 case 45 => 15 case 46 => 14
       case 47 => 14 case _ => 0)
    else if symbol < 56 then
      (match symbol case 48 => 15 case 49 => 15 case 50 => 15 case 51 => 14 case 52 => 16 case 53 => 15 case 54 => 15
       case 55 => 15 case _ => 0)
    else if symbol < 64 then
      (match symbol case 56 => 16 case 57 => 16 case 58 => 16 case 59 => 15 case 60 => 16 case 61 => 16 case 62 => 16
       case 63 => 16 case _ => 0)
    else
      (match symbol case 64 => 16 case 65 => 16 case 66 => 16 case 67 => 16 case _ => 0)
  }

  function CoeffTokenBits0(symbol: nat): nat
  {
    if symbol < 8 then
      (match symbol case 0 => 1 case 4 => 5 case 5 => 1 case _ => 0)
    else if symbol < 16 then
      (match symbol case 8 => 7 case 9 => 4 case 10 => 1 case 12 => 7 case 13 => 6 case 14 => 5 case 15 => 3
       case _ => 0)
    else if symbol < 24 then
      (match symbol case 16 => 7 case 17 => 6 case 18 => 5 case 19 => 3 case 20 => 7 case 21 => 6 case 22 => 5
       case 23 => 4 case _ => 0)
    else if symbol < 32 then
      (match symbol case 24 => 15 case 25 => 6 case 26 => 5 case 27 => 4 case 28 => 11 case 29 => 14 case 30 => 5
       case 31 => 4 case _ => 0)
    else if symbol < 40 then
      (match symbol case 32 => 8 case 33 => 10 case 34 => 13 case 35 => 4 case 36 => 15 case 37 => 14 case 38 => 9
       case 39 => 4 case _ => 0)
    else if symbol < 48 then
      (match symbol case 40 => 11 case 41 => 10 case 42 => 13 case 43 => 12 case 44 => 15 case 45 => 14 case 46 => 9
       case 47 => 12 case _ => 0)
    else if symbol < 56 then
      (match symbol case 48 => 11 case 49 => 10 case 50 => 13 case 51 => 8 case 52 => 15 case 53 => 1 case 54 => 9
       case 55 => 12 case _ => 0)
    else if symbol < 64 then
      (match symbol case 56 => 11 case 57 => 14 case 58 => 13 case 59 => 8 case 60 => 7 case 61 => 10 case 62 => 9
       case 63 => 12 case _ => 0)
    else
      (match symbol case 64 => 4 case 65 => 6 case 66 => 5 case 67 => 8 case _ => 0)
  }

  function CoeffTokenLen1(symbol: nat): nat
  {
    if symbol < 8 then
      (match symbol case 0 => 2 case 4 => 6 case 5 => 2 case _ => 0)
    else if symbol < 16 then
      (match symbol case 8 => 6 case 9 => 5 case 10 => 3 case 12 => 7 case 13 => 6 case 14 => 6 case 15 => 4
       case _ => 0)
    else if symbol < 24 then
      (match symbol case 16 => 8 case 17 => 6 case 18 => 6 case 19 => 4 case 20 => 8 case 21 => 7 case 22 => 7
       case 23 => 5 case _ => 0)
    else if symbol < 32 then
      (match symbol case 24 => 9 case 25 => 8 case 26 => 8 case 27 => 6 case 28 => 11 case 29 => 9 case 30 => 9
       case 31 => 6 case _ => 0)
    else if symbol < 40 then
      (match symbol case 32 => 11 case 33 => 11 case 34 => 11 case 35 => 7 case 36 => 12 case 37 => 11 case 38 => 11
       case 39 => 9 case _ => 0)
    else if symbol < 48 then
      (match symbol case 40 => 12 case 41 => 12 case 42 => 12 case 43 => 11 case 44 => 12 case 45 => 12 case 46 => 12
       case 47 => 11 case _ => 0)
    else if symbol < 56 then
      (match symbol case 48 => 13 case 49 => 13 case 50 => 13 case 51 => 12 case 52 => 13 case 53 => 13 case 54 => 13
       case 55 => 13 case _ => 0)
    else if symbol < 64 then
      (match symbol case 56 => 13 case 57 => 14 case 58 => 13 case 59 => 13 case 60 => 14 case 61 => 14 case 62 => 14
       case 63 => 13 case _ => 0)
    else
      (match symbol case 64 => 14 case 65 => 14 case 66 => 14 case 67 => 14 case _ => 0)
  }

  function CoeffTokenBits1(symbol: nat): nat
  {
    if symbol < 8 then
      (match symbol case 0 => 3 case 4 => 11 case 5 => 2 case _ => 0)
    else if symbol < 16 then
      (match symbol case 8 => 7 case 9 => 7 case 10 => 3 case 12 => 7 case 13 => 10 case 14 => 9 case 15 => 5
       case _ => 0)
    else if symbol < 24 then
      (match symbol case 16 => 7 case 17 => 6 case 18 => 5 case 19 => 4 case 20 => 4 case 21 => 6 case 22 => 5
       case 23 => 6 case _ => 0)
    else if symbol < 32 then
      (match symbol case 24 => 7 case 25 => 6 case 26 => 5 case 27 => 8 case 28 => 15 case 29 => 6 case 30 => 5
       case 31 => 4 case _ => 0)
    else if symbol < 40 then
      (match symbol case 32 => 11 case 33 => 14 case 34 => 13 case 35 => 4 case 36 => 15 case 37 => 10 case 38 => 9
       case 39 => 4 case _ => 0)
    else if symbol < 48 then
      (match symbol case 40 => 11 case 41 => 14 case 42 => 13 case 43 => 12 case 44 => 8 case 45 => 10 case 46 => 9
       case 47 => 8 case _ => 0)
    else if symbol < 56 then
      (match symbol case 48 => 15 case 49 => 14 case 50 => 13 case 51 => 12 case 52 => 11 case 53 => 10 case 54 => 9
       case 55 => 12 case _ => 0)
    else if symbol < 64 then
      (match symbol case 56 => 7 case 57 => 11 case 58 => 6 case 59 => 8 case 60 => 9 case 61 => 8 case 62 => 10
       case 63 => 1 case _ => 0)
    else
      (match symbol case 64 => 7 case 65 => 6 case 66 => 5 case 67 => 4 case _ => 0)
  }

  function CoeffTokenLen2(symbol: nat): nat
  {
    if symbol < 8 then
      (match symbol case 0 => 4 case 4 => 6 case 5 => 4 case _ => 0)
    else if symbol < 16 then
      (match symbol case 8 => 6 case 9 => 5 case 10 => 4 case 12 => 6 case 13 => 5 case 14 => 5 case 15 => 4
       case _ => 0)
    else if symbol < 24 then
      (match symbol case 16 => 7 case 17 => 5 case 18 => 5 case 19 => 4 case 20 => 7 case 21 => 5 case 22 => 5
       case 23 => 4 case _ => 0)
    else if symbol < 32 then
      (match symbol case 24 => 7 case 25 => 6 case 26 => 6 case 27 => 4 case 28 => 7 case 29 => 6 case 30 => 6
       case 31 => 4 case _ => 0)
    else if symbol < 40 then
      (match symbol case 32 => 8 case 33 => 7 case 34 => 7 case 35 => 5 case 36 => 8 case 37 => 8 case 38 => 7
       case 39 => 6 case _ => 0)
    else if symbol < 48 then
      (match symbol case 40 => 9 case 41 => 8 case 42 => 8 case 43 => 7 case 44 => 9 case 45 => 9 case 46 => 8
       case 47 => 8 case _ => 0)
    else if symbol < 56 then
      (match symbol case 48 => 9 case 49 => 9 case 50 => 9 case 51 => 8 case 52 => 10 case 53 => 9 case 54 => 9
       case 55 => 9 case _ => 0)
    else if symbol < 64 then
      (match symbol case 56 => 10 case 57 => 10 case 58 => 10 case 59 => 10 case 60 => 10 case 61 => 10 case 62 => 10
       case 63 => 10 case _ => 0)
    else
      (match symbol case 64 => 10 case 65 => 10 case 66 => 10 case 67 => 10 case _ => 0)
  }

  function CoeffTokenBits2(symbol: nat): nat
  {
    if symbol < 8 then
      (match symbol case 0 => 15 case 4 => 15 case 5 => 14 case _ => 0)
    else if symbol < 16 then
      (match symbol case 8 => 11 case 9 => 15 case 10 => 13 case 12 => 8 case 13 => 12 case 14 => 14 case 15 => 12
       case _ => 0)
    else if symbol < 24 then
      (match symbol case 16 => 15 case 17 => 10 case 18 => 11 case 19 => 11 case 20 => 11 case 21 => 8 case 22 => 9
       case 23 => 10 case _ => 0)
    else if symbol < 32 then
      (match symbol case 24 => 9 case 25 => 14 case 26 => 13 case 27 => 9 case 28 => 8 case 29 => 10 case 30 => 9
       case 31 => 8 case _ => 0)
    else if symbol < 40 then
      (match symbol case 32 => 15 case 33 => 14 case 34 => 13 case 35 => 13 case 36 => 11 case 37 => 14 case 38 => 10
       case 39 => 12 case _ => 0)
    else if symbol < 48 then
      (match symbol case 40 => 15 case 41 => 10 case 42 => 13 case 43 => 12 case 44 => 11 case 45 => 14 case 46 => 9
       case 47 => 12 case _ => 0)
    else if symbol < 56 then
      (match symbol case 48 => 8 case 49 => 10 case 50 => 13 case 51 => 8 case 52 => 13 case 53 => 7 case 54 => 9
       case 55 => 12 case _ => 0)
    else if symbol < 64 then
      (match symbol case 56 => 9 case 57 => 12 case 58 => 11 case 59 => 10 case 60 => 5 case 61 => 8 case 62 => 7
       case 63 => 6 case _ => 0)
    else
      (match symbol case 64 => 1 case 65 => 4 case 66 => 3 case 67 => 2 case _ => 0)
  }

  function CoeffTokenLen3(symbol: nat): nat
  {
    if symbol < 8 then
      (match symbol case 0 => 6 case 4 => 6 case 5 => 6 case _ => 0)
    else if symbol < 16 then
      (match symbol case 8 => 6 case 9 => 6 case 10 => 6 case 12 => 6 case 13 => 6 case 14 => 6 case 15 => 6
       case _ => 0)
    else if symbol < 24 then
      (match symbol case 16 => 6 case 17 => 6 case 18 => 6 case 19 => 6 case 20 => 6 case 21 => 6 case 22 => 6
       case 23 => 6 case _ => 0)
    else if symbol < 32 then
      (match symbol case 24 => 6 case 25 => 6 case 26 => 6 case 27 => 6 case 28 => 6 case 29 => 6 case 30 => 6
       case 31 => 6 case _ => 0)
    else if symbol < 40 then
      (match symbol case 32 => 6 case 33 => 6 case 34 => 6 case 35 => 6 case 36 => 6 case 37 => 6 case 38 => 6
       case 39 => 6 case _ => 0)
    else if symbol < 48 then
      (match symbol case 40 => 6 case 41 => 6 case 42 => 6 case 43 => 6 case 44 => 6 case 45 => 6 case 46 => 6
       case 47 => 6 case _ => 0)
    else if symbol < 56 then
      (match symbol case 48 => 6 case 49 => 6 case 50 => 6 case 51 => 6 case 52 => 6 case 53 => 6 case 54 => 6
       case 55 => 6 case _ => 0)
    else if symbol < 64 then
      (match symbol case 56 => 6 case 57 => 6 case 58 => 6 case 59 => 6 case 60 => 6 case 61 => 6 case 62 => 6
       case 63 => 6 case _ => 0)
    else
      (match symbol case 64 => 6 case 65 => 6 case 66 => 6 case 67 => 6 case _ => 0)
  }

  function CoeffTokenBits3(symbol: nat): nat
  {
    if symbol < 8 then
      (match symbol case 0 => 3 case 5 => 1 case _ => 0)
    else if symbol < 16 then
      (match symbol case 8 => 4 case 9 => 5 case 10 => 6 case 12 => 8 case 13 => 9 case 14 => 10 case 15 => 11
       case _ => 0)
    else if symbol < 24 then
      (match symbol case 16 => 12 case 17 => 13 case 18 => 14 case 19 => 15 case 20 => 16 case 21 => 17 case 22 => 18
       case 23 => 19 case _ => 0)
    else if symbol < 32 then
      (match symbol case 24 => 20 case 25 => 21 case 26 => 22 case 27 => 23 case 28 => 24 case 29 => 25 case 30 => 26
       case 31 => 27 case _ => 0)
    else if symbol < 40 then
      (match symbol case 32 => 28 case 33 => 29 case 34 => 30 case 35 => 31 case 36 => 32 case 37 => 33 case 38 => 34
       case 39 => 35 case _ => 0)
    else if symbol < 48 then
      (match symbol case 40 => 36 case 41 => 37 case 42 => 38 case 43 => 39 case 44 => 40 case 45 => 41 case 46 => 42
       case 47 => 43 case _ => 0)
    else if symbol < 56 then
      (match symbol case 48 => 44 case 49 => 45 case 50 => 46 case 51 => 47 case 52 => 48 case 53 => 49 case 54 => 50
       case 55 => 51 case _ => 0)
    else if symbol < 64 then
      (match symbol case 56 => 52 case 57 => 53 case 58 => 54 case 59 => 55 case 60 => 56 case 61 => 57 case 62 => 58
       case 63 => 59 case _ => 0)
    else
      (match symbol case 64 => 60 case 65 => 61 case 66 => 62 case 67 => 63 case _ => 0)
  }

  function ChromaDcTokenLen(symbol: nat): nat
  {
    if symbol < 8 then
      (match symbol case 0 => 2 case 4 => 6 case 5 => 1 case _ => 0)
    else if symbol < 16 then
      (match symbol case 8 => 6 case 9 => 6 case 10 => 3 case 12 => 6 case 13 => 7 case 14 => 7 case 15 => 6
       case _ => 0)
    else
      (match symbol case 16 => 6 case 17 => 8 case 18 => 8 case 19 => 7 case _ => 0)
  }

  function ChromaDcTokenBits(symbol: nat): nat
  {
    if symbol < 8 then
      (match symbol case 0 => 1 case 4 => 7 case 5 => 1 case _ => 0)
    else if symbol < 16 then
      (match symbol case 8 => 4 case 9 => 6 case 10 => 1 case 12 => 3 case 13 => 3 case 14 => 2 case 15 => 5
       case _ => 0)
    else
      (match symbol case 16 => 2 case 17 => 3 case 18 => 2 case _ => 0)
  }

  function Chroma422DcTokenLen(symbol: nat): nat
  {
    if symbol < 8 then
      (match symbol case 0 => 1 case 4 => 7 case 5 => 2 case _ => 0)
    else if symbol < 16 then
      (match symbol case 8 => 7 case 9 => 7 case 10 => 3 case 12 => 9 case 13 => 7 case 14 => 7 case 15 => 5
       case _ => 0)
    else if symbol < 24 then
      (match symbol case 16 => 9 case 17 => 9 case 18 => 7 case 19 => 6 case 20 => 10 case 21 => 10 case 22 => 9
       case 23 => 7 case _ => 0)
    else if symbol < 32 then
      (match symbol case 24 => 11 case 25 => 11 case 26 => 10 case 27 => 7 case 28 => 12 case 29 => 12 case 30 => 11
       case 31 => 10 case _ => 0)
    else
      (match symbol case 32 => 13 case 33 => 12 case 34 => 12 case 35 => 11 case _ => 0)
  }

  function Chroma422DcTokenBits(symbol: nat): nat
  {
    if symbol < 8 then
      (match symbol case 0 => 1 case 4 => 15 case 5 => 1 case _ => 0)
    else if symbol < 16 then
      (match symbol case 8 => 14 case 9 => 13 case 10 => 1 case 12 => 7 case 13 => 12 case 14 => 11 case 15 => 1
       case _ => 0)
    else if symbol < 24 then
      (match symbol case 16 => 6 case 17 => 5 case 18 => 10 case 19 => 1 case 20 => 7 case 21 => 6 case 22 => 4
       case 23 => 9 case _ => 0)
    else if symbol < 32 then
      (match symbol case 24 => 7 case 25 => 6 case 26 => 5 case 27 => 8 case 28 => 7 case 29 => 6 case 30 => 5
       case 31 => 4 case _ => 0)
    else
      (match symbol case 32 => 7 case 33 => 5 case 34 => 4 case 35 => 4 case _ => 0)
  }

  // One code: a row of one of the tables.
  datatype CodeId =
    | CoeffToken(row: nat)
    | ChromaDcToken
    | Chroma422DcToken
    | TotalZeros(row: nat)
    | ChromaDcTotalZeros(row: nat)
    | Chroma422DcTotalZeros(row: nat)
    | Run(row: nat)
  {
    predicate Valid()
    {
      match this
      case CoeffToken(row) => row < 4
      case ChromaDcToken => true
      case Chroma422DcToken => true
      case TotalZeros(row) => row < 15
      case ChromaDcTotalZeros(row) => row < 3
      case Chroma422DcTotalZeros(row) => row < 7
      case Run(row) => row < 7
    }

    // The length of the table row.
    function Symbols(): nat
    {
      match this
      case CoeffToken(_) => 68
      case ChromaDcToken => 20
      case Chroma422DcToken => 36
      case TotalZeros(_) => 16
      case ChromaDcTotalZeros(_) => 4
      case Chroma422DcTotalZeros(_) => 8
      case Run(_) => 16
    }
  }

  function CoeffTokenLen(row: nat, symbol: nat): nat
  {
    match row
    case 0 => CoeffTokenLen0(symbol)
    case 1 => CoeffTokenLen1(symbol)
    case 2 => CoeffTokenLen2(symbol)
    case 3 => CoeffTokenLen3(symbol)
    case _ => 0
  }

  function TotalZerosLen(row: nat, symbol: nat): nat
  {
    match row
    case 0 =>
      if symbol < 8
      then (match symbol case 0 => 1 case 1 => 3 case 2 => 3 case 3 => 4 case 4 => 4 case 5 => 5 case 6 => 5 case 7 => 6
            case _ => 0)
      else (match symbol case 8 => 6 case 9 => 7 case 10 => 7 case 11 => 8 case 12 => 8 case 13 => 9 case 14 => 9
            case 15 => 9 case _ => 0)
    case 1 =>
      if symbol < 8
      then (match symbol case 0 => 3 case 1 => 3 case 2 => 3 case 3 => 3 case 4 => 3 case 5 => 4 case 6 => 4 case 7 => 4
            case _ => 0)
      else (match symbol case 8 => 4 case 9 => 5 case 10 => 5 case 11 => 6 case 12 => 6 case 13 => 6 case 14 => 6
            case _ => 0)
    case 2 =>
      if symbol < 8
      then (match symbol case 0 => 4 case 1 => 3 case 2 => 3 case 3 => 3 case 4 => 4 case 5 => 4 case 6 => 3 case 7 => 3
            case _ => 0)
      else (match symbol case 8 => 4 case 9 => 5 case 10 => 5 case 11 => 6 case 12 => 5 case 13 => 6 case _ => 0)
    case 3 =>
      if symbol < 8
      then (match symbol case 0 => 5 case 1 => 3 case 2 => 4 case 3 => 4 case 4 => 3 case 5 => 3 case 6 => 3 case 7 => 4
            case _ => 0)
      else (match symbol case 8 => 3 case 9 => 4 case 10 => 5 case 11 => 5 case 12 => 5 case _ => 0)
    case 4 =>
      if symbol < 8
      then (match symbol case 0 => 4 case 1 => 4 case 2 => 4 case 3 => 3 case 4 => 3 case 5 => 3 case 6 => 3 case 7 => 3
            case _ => 0)
      else (match symbol case 8 => 4 case 9 => 5 case 10 => 4 case 11 => 5 case _ => 0)
    case 5 =>
      if symbol < 8
      then (match symbol case 0 => 6 case 1 => 5 case 2 => 3 case 3 => 3 case 4 => 3 case 5 => 3 case 6 => 3 case 7 => 3
            case _ => 0)
      else (match symbol case 8 => 4 case 9 => 3 case 10 => 6 case _ => 0)
    case 6 =>
      if symbol < 8
      then (match symbol case 0 => 6 case 1 => 5 case 2 => 3 case 3 => 3 case 4 => 3 case 5 => 2 case 6 => 3 case 7 => 4
            case _ => 0)
      else (match symbol case 8 => 3 case 9 => 6 case _ => 0)
    case 7 =>
      if symbol < 8
      then (match symbol case 0 => 6 case 1 => 4 case 2 => 5 case 3 => 3 case 4 => 2 case 5 => 2 case 6 => 3 case 7 => 3
            case _ => 0)
      else (match symbol case 8 => 6 case _ => 0)
    case 8 => (match symbol case 0 => 6 case 1 => 6 case 2 => 4 case 3 => 2 case 4 => 2 case 5 => 3 case 6 => 2
               case 7 => 5 case _ => 0)
    case 9 => (match symbol case 0 => 5 case 1 => 5 case 2 => 3 case 3 => 2 case 4 => 2 case 5 => 2 case 6 => 4
               case _ => 0)
    case 10 => (match symbol case 0 => 4 case 1 => 4 case 2 => 3 case 3 => 3 case 4 => 1 case 5 => 3 case _ => 0)
    case 11 => (match symbol case 0 => 4 case 1 => 4 case 2 => 2 case 3 => 1 case 4 => 3 case _ => 0)
    case 12 => (match symbol case 0 => 3 case 1 => 3 case 2 => 1 case 3 => 2 case _ => 0)
    case 13 => (match symbol case 0 => 2 case 1 => 2 case 2 => 1 case _ => 0)
    case 14 => (match symbol case 0 => 1 case 1 => 1 case _ => 0)
    case _ => 0
  }

  function ChromaDcTotalZerosLen(row: nat, symbol: nat): nat
  {
    match row
    case 0 => (match symbol case 0 => 1 case 1 => 2 case 2 => 3 case 3 => 3 case _ => 0)
    case 1 => (match symbol case 0 => 1 case 1 => 2 case 2 => 2 case _ => 0)
    case 2 => (match symbol case 0 => 1 case 1 => 1 case _ => 0)
    case _ => 0
  }

  function Chroma422DcTotalZerosLen(row: nat, symbol: nat): nat
  {
    match row
    case 0 => (match symbol case 0 => 1 case 1 => 3 case 2 => 3 case 3 => 4 case 4 => 4 case 5 => 4 case 6 => 5
               case 7 => 5 case _ => 0)
    case 1 => (match symbol case 0 => 3 case 1 => 2 case 2 => 3 case 3 => 3 case 4 => 3 case 5 => 3 case 6 => 3
               case _ => 0)
    case 2 => (match symbol case 0 => 3 case 1 => 3 case 2 => 2 case 3 => 2 case 4 => 3 case 5 => 3 case _ => 0)
    case 3 => (match symbol case 0 => 3 case 1 => 2 case 2 => 2 case 3 => 2 case 4 => 3 case _ => 0)
    case 4 => (match symbol case 0 => 2 case 1 => 2 case 2 => 2 case 3 => 2 case _ => 0)
    case 5 => (match symbol case 0 => 2 case 1 => 2 case 2 => 1 case _ => 0)
    case 6 => (match symbol case 0 => 1 case 1 => 1 case _ => 0)
    case _ => 0
  }

  function RunLen(row: nat, symbol: nat): nat
  {
    match row
    case 0 => (match symbol case 0 => 1 case 1 => 1 case _ => 0)
    case 1 => (match symbol case 0 => 1 case 1 => 2 case 2 => 2 case _ => 0)
    case 2 => (match symbol case 0 => 2 case 1 => 2 case 2 => 2 case 3 => 2 case _ => 0)
    case 3 => (match symbol case 0 => 2 case 1 => 2 case 2 => 2 case 3 => 3 case 4 => 3 case _ => 0)
    case 4 => (match symbol case 0 => 2 case 1 => 2 case 2 => 3 case 3 => 3 case 4 => 3 case 5 => 3 case _ => 0)
    case 5 => (match symbol case 0 => 2 case 1 => 3 case 2 => 3 case 3 => 3 case 4 => 3 case 5 => 3 case 6 => 3
               case _ => 0)
    case 6 =>
      if symbol < 8
      then (match symbol case 0 => 3 case 1 => 3 case 2 => 3 case 3 => 3 case 4 => 3 case 5 => 3 case 6 => 3 case 7 => 4
            case _ => 0)
      else (match symbol case 8 => 5 case 9 => 6 case 10 => 7 case 11 => 8 case 12 => 9 case 13 => 10 case 14 => 11
            case _ => 0)
    case _ => 0
  }

  function CodeLen(id: CodeId, symbol: nat): nat
  {
    match id
    case CoeffToken(row) => CoeffTokenLen(row, symbol)
    case ChromaDcToken => ChromaDcTokenLen(symbol)
    case Chroma422DcToken => Chroma422DcTokenLen(symbol)
    case TotalZeros(row) => TotalZerosLen(row, symbol)
    case ChromaDcTotalZeros(row) => ChromaDcTotalZerosLen(row, symbol)
    case Chroma422DcTotalZeros(row) => Chroma422DcTotalZerosLen(row, symbol)
    case Run(row) => RunLen(row, symbol)
  }

  function CoeffTokenBits(row: nat, symbol: nat): nat
  {
    match row
    case 0 => CoeffTokenBits0(symbol)
    case 1 => CoeffTokenBits1(symbol)
    case 2 => CoeffTokenBits2(symbol)
    case 3 => CoeffTokenBits3(symbol)
    case _ => 0
  }

  function TotalZerosBits(row: nat, symbol: nat): nat
  {
    match row
    case 0 =>
      if symbol < 8
      then (match symbol case 0 => 1 case 1 => 3 case 2 => 2 case 3 => 3 case 4 => 2 case 5 => 3 case 6 => 2 case 7 => 3
            case _ => 0)
      else (match symbol case 8 => 2 case 9 => 3 case 10 => 2 case 11 => 3 case 12 => 2 case 13 => 3 case 14 => 2
            case 15 => 1 case _ => 0)
    case 1 =>
      if symbol < 8
      then (match symbol case 0 => 7 case 1 => 6 case 2 => 5 case 3 => 4 case 4 => 3 case 5 => 5 case 6 => 4 case 7 => 3
            case _ => 0)
      else (match symbol case 8 => 2 case 9 => 3 case 10 => 2 case 11 => 3 case 12 => 2 case 13 => 1 case _ => 0)
    case 2 =>
      if symbol < 8
      then (match symbol case 0 => 5 case 1 => 7 case 2 => 6 case 3 => 5 case 4 => 4 case 5 => 3 case 6 => 4 case 7 => 3
            case _ => 0)
      else (match symbol case 8 => 2 case 9 => 3 case 10 => 2 case 11 => 1 case 12 => 1 case _ => 0)
    case 3 =>
      if symbol < 8
      then (match symbol case 0 => 3 case 1 => 7 case 2 => 5 case 3 => 4 case 4 => 6 case 5 => 5 case 6 => 4 case 7 => 3
            case _ => 0)
      else (match symbol case 8 => 3 case 9 => 2 case 10 => 2 case 11 => 1 case _ => 0)
    case 4 =>
      if symbol < 8
      then (match symbol case 0 => 5 case 1 => 4 case 2 => 3 case 3 => 7 case 4 => 6 case 5 => 5 case 6 => 4 case 7 => 3
            case _ => 0)
      else (match symbol case 8 => 2 case 9 => 1 case 10 => 1 case _ => 0)
    case 5 =>
      if symbol < 8
      then (match symbol case 0 => 1 case 1 => 1 case 2 => 7 case 3 => 6 case 4 => 5 case 5 => 4 case 6 => 3 case 7 => 2
            case _ => 0)
      else (match symbol case 8 => 1 case 9 => 1 case _ => 0)
    case 6 =>
      if symbol < 8
      then (match symbol case 0 => 1 case 1 => 1 case 2 => 5 case 3 => 4 case 4 => 3 case 5 => 3 case 6 => 2 case 7 => 1
            case _ => 0)
      else (match symbol case 8 => 1 case _ => 0)
    case 7 => (match symbol case 0 => 1 case 1 => 1 case 2 => 1 case 3 => 3 case 4 => 3 case 5 => 2 case 6 => 2
               case 7 => 1 case _ => 0)
    case 8 => (match symbol case 0 => 1 case 2 => 1 case 3 => 3 case 4 => 2 case 5 => 1 case 6 => 1 case 7 => 1
               case _ => 0)
    case 9 => (match symbol case 0 => 1 case 2 => 1 case 3 => 3 case 4 => 2 case 5 => 1 case 6 => 1 case _ => 0)
    case 10 => (match symbol case 1 => 1 case 2 => 1 case 3 => 2 case 4 => 1 case 5 => 3 case _ => 0)
    case 11 => (match symbol case 1 => 1 case 2 => 1 case 3 => 1 case 4 => 1 case _ => 0)
    case 12 => (match symbol case 1 => 1 case 2 => 1 case 3 => 1 case _ => 0)
    case 13 => (match symbol case 1 => 1 case 2 => 1 case _ => 0)
    case 14 => (match symbol case 1 => 1 case _ => 0)
    case _ => 0
  }

  function ChromaDcTotalZerosBits(row: nat, symbol: nat): nat
  {
    match row
    case 0 => (match symbol case 0 => 1 case 1 => 1 case 2 => 1 case _ => 0)
    case 1 => (match symbol case 0 => 1 case 1 => 1 case _ => 0)
    case 2 => (match symbol case 0 => 1 case _ => 0)
    case _ => 0
  }

  function Chroma422DcTotalZerosBits(row: nat, symbol: nat): nat
  {
    match row
    case 0 => (match symbol case 0 => 1 case 1 => 2 case 2 => 3 case 3 => 2 case 4 => 3 case 5 => 1 case 6 => 1
               case _ => 0)
    case 1 => (match symbol case 1 => 1 case 2 => 1 case 3 => 4 case 4 => 5 case 5 => 6 case 6 => 7 case _ => 0)
    case 2 => (match symbol case 1 => 1 case 2 => 1 case 3 => 2 case 4 => 6 case 5 => 7 case _ => 0)
    case 3 => (match symbol case 0 => 6 case 2 => 1 case 3 => 2 case 4 => 7 case _ => 0)
    case 4 => (match symbol case 1 => 1 case 2 => 2 case 3 => 3 case _ => 0)
    case 5 => (match symbol case 1 => 1 case 2 => 1 case _ => 0)
    case 6 => (match symbol case 1 => 1 case _ => 0)
    case _ => 0
  }

  function RunBits(row: nat, symbol: nat): nat
  {
    match row
    case 0 => (match symbol case 0 => 1 case _ => 0)
    case 1 => (match symbol case 0 => 1 case 1 => 1 case _ => 0)
    case 2 => (match symbol case 0 => 3 case 1 => 2 case 2 => 1 case _ => 0)
    case 3 => (match symbol case 0 => 3 case 1 => 2 case 2 => 1 case 3 => 1 case _ => 0)
    case 4 => (match symbol case 0 => 3 case 1 => 2 case 2 => 3 case 3 => 2 case 4 => 1 case _ => 0)
    case 5 => (match symbol case 0 => 3 case 2 => 1 case 3 => 3 case 4 => 2 case 5 => 5 case 6 => 4 case _ => 0)
    case 6 =>
      if symbol < 8
      then (match symbol case 0 => 7 case 1 => 6 case 2 => 5 case 3 => 4 case 4 => 3 case 5 => 2 case 6 => 1 case 7 => 1
            case _ => 0)
      else (match symbol case 8 => 1 case 9 => 1 case 10 => 1 case 11 => 1 case 12 => 1 case 13 => 1 case 14 => 1
            case _ => 0)
    case _ => 0
  }

  function CodeBits(id: CodeId, symbol: nat): nat
  {
    match id
    case CoeffToken(row) => CoeffTokenBits(row, symbol)
    case ChromaDcToken => ChromaDcTokenBits(symbol)
    case Chroma422DcToken => Chroma422DcTokenBits(symbol)
    case TotalZeros(row) => TotalZerosBits(row, symbol)
    case ChromaDcTotalZeros(row) => ChromaDcTotalZerosBits(row, symbol)
    case Chroma422DcTotalZeros(row) => Chroma422DcTotalZerosBits(row, symbol)
    case Run(row) => RunBits(row, symbol)
  }

}
