/**
 * The 64 hexagrams: `HEXAGRAM_DATA` (index.tsx:70-103), the name-keyed
 * `hexagramLookup` (index.tsx:105) and the `fullHexagramMap` that names the
 * hexagram of an (upper, lower) trigram pair (index.tsx:120-137).
 */
module Hexagrams {
  import opened Lines
  import opened Trigrams

  /** `HexagramData`: a number in 1..64, a display glyph and a display name. */
  datatype HexagramData = HexagramData(number: int, hanTu: string, vietnameseName: string)

  /**
   * Entry `n` of `HEXAGRAM_DATA` (index.tsx:70-103), the array written out
   * by position: entry 1 is the array's first element. The table is
   * written as a function of the position, and `HEXAGRAM_DATA` below is
   * built from it.
   */
  function HexagramEntry(n: int): (e: HexagramData)
    requires 1 <= n <= 64
    ensures e.number == n
  {
    if n == 1 then HexagramData(1, "䷀", "Thuần Càn")
    else if n == 2 then HexagramData(2, "䷁", "Thuần Khôn")
    else if n == 3 then HexagramData(3, "䷂", "Thủy Lôi Truân")
    else if n == 4 then HexagramData(4, "䷃", "Sơn Thủy Mông")
    else if n == 5 then HexagramData(5, "䷄", "Thủy Thiên Nhu")
    else if n == 6 then HexagramData(6, "䷅", "Thiên Thủy Tụng")
    else if n == 7 then HexagramData(7, "䷆", "Địa Thủy Sư")
    else if n == 8 then HexagramData(8, "䷇", "Thủy Địa Tỷ")
    else if n == 9 then HexagramData(9, "䷈", "Phong Thiên Tiểu Súc")
    else if n == 10 then HexagramData(10, "䷉", "Thiên Trạch Lý")
    else if n == 11 then HexagramData(11, "䷊", "Địa Thiên Thái")
    else if n == 12 then HexagramData(12, "䷋", "Thiên Địa Bĩ")
    else if n == 13 then HexagramData(13, "䷌", "Thiên Hỏa Đồng Nhân")
    else if n == 14 then HexagramData(14, "䷍", "Hỏa Thiên Đại Hữu")
    else if n == 15 then HexagramData(15, "䷎", "Địa Sơn Khiêm")
    else if n == 16 then HexagramData(16, "䷏", "Lôi Địa Dự")
    else if n == 17 then HexagramData(17, "䷐", "Trạch Lôi Tùy")
    else if n == 18 then HexagramData(18, "䷑", "Sơn Phong Cổ")
    else if n == 19 then HexagramData(19, "䷒", "Địa Trạch Lâm")
    else if n == 20 then HexagramData(20, "䷓", "Phong Địa Quan")
    else if n == 21 then HexagramData(21, "䷔", "Hỏa Lôi Phệ Hạp")
    else if n == 22 then HexagramData(22, "䷕", "Sơn Hỏa Bí")
    else if n == 23 then HexagramData(23, "䷖", "Sơn Địa Bác")
    else if n == 24 then HexagramData(24, "䷗", "Địa Lôi Phục")
    else if n == 25 then HexagramData(25, "䷘", "Thiên Lôi Vô Vọng")
    else if n == 26 then HexagramData(26, "䷙", "Sơn Thiên Đại Súc")
    else if n == 27 then HexagramData(27, "䷚", "Sơn Lôi Di")
    else if n == 28 then HexagramData(28, "䷛", "Trạch Phong Đại Quá")
    else if n == 29 then HexagramData(29, "䷜", "Thuần Khảm")
    else if n == 30 then HexagramData(30, "䷝", "Thuần Ly")
    else if n == 31 then HexagramData(31, "䷞", "Trạch Sơn Hàm")
    else if n == 32 then HexagramData(32, "䷟", "Lôi Phong Hằng")
    else if n == 33 then HexagramData(33, "䷠", "Thiên Sơn Độn")
    else if n == 34 then HexagramData(34, "䷡", "Lôi Thiên Đại Tráng")
    else if n == 35 then HexagramData(35, "䷢", "Hỏa Địa Tấn")
    else if n == 36 then HexagramData(36, "䷣", "Địa Hỏa Minh Di")
    else if n == 37 then HexagramData(37, "䷤", "Phong Hỏa Gia Nhân")
    else if n == 38 then HexagramData(38, "䷥", "Hỏa Trạch Khuê")
    else if n == 39 then HexagramData(39, "䷦", "Thủy Sơn Kiển")
    else if n == 40 then HexagramData(40, "䷧", "Lôi Thủy Giải")
    else if n == 41 then HexagramData(41, "䷨", "Sơn Trạch Tốn")
    else if n == 42 then HexagramData(42, "䷩", "Phong Lôi Ích")
    else if n == 43 then HexagramData(43, "䷪", "Trạch Thiên Quải")
    else if n == 44 then HexagramData(44, "䷫", "Thiên Phong Cấu")
    else if n == 45 then HexagramData(45, "䷬", "Trạch Địa Tụy")
    else if n == 46 then HexagramData(46, "䷭", "Địa Phong Thăng")
    else if n == 47 then HexagramData(47, "䷮", "Trạch Thủy Khốn")
    else if n == 48 then HexagramData(48, "䷯", "Thủy Phong Tỉnh")
    else if n == 49 then HexagramData(49, "䷰", "Trạch Hỏa Cách")
    else if n == 50 then HexagramData(50, "䷱", "Hỏa Phong Đỉnh")
    else if n == 51 then HexagramData(51, "䷲", "Thuần Chấn")
    else if n == 52 then HexagramData(52, "䷳", "Thuần Cấn")
    else if n == 53 then HexagramData(53, "䷴", "Phong Sơn Tiệm")
    else if n == 54 then HexagramData(54, "䷵", "Lôi Trạch Quy Muội")
    else if n == 55 then HexagramData(55, "䷶", "Lôi Hỏa Phong")
    else if n == 56 then HexagramData(56, "䷷", "Hỏa Sơn Lữ")
    else if n == 57 then HexagramData(57, "䷸", "Thuần Tốn")
    else if n == 58 then HexagramData(58, "䷹", "Thuần Đoài")
    else if n == 59 then HexagramData(59, "䷺", "Phong Thủy Hoán")
    else if n == 60 then HexagramData(60, "䷻", "Thủy Trạch Tiết")
    else if n == 61 then HexagramData(61, "䷼", "Phong Trạch Trung Phu")
    else if n == 62 then HexagramData(62, "䷽", "Lôi Sơn Tiểu Quá")
    else if n == 63 then HexagramData(63, "䷾", "Thủy Hỏa Ký Tế")
    else HexagramData(64, "䷿", "Hỏa Thủy Vị Tế")
  }

  /** `HEXAGRAM_DATA`, the 64 entries in the source's order. */
  const HEXAGRAM_DATA: seq<HexagramData> := seq(64, i requires 0 <= i < 64 => HexagramEntry(i + 1))

  /** The array is numbered by position: entry `n` carries number `n`. */
  lemma HexagramDataNumbered(n: int)
    requires 1 <= n <= 64
    ensures HEXAGRAM_DATA[n - 1] == HexagramEntry(n)
    ensures HEXAGRAM_DATA[n - 1].number == n
  {
  }

  /**
   * `fullHexagramMap[`${upper}-${lower}`]`: the display name the source
   * gives the hexagram with the upper trigram above the lower one
   * (index.tsx:120-139), in the source's order.
   */
  function FullHexagramName(upper: Trigram, lower: Trigram): string
  {
    match (upper, lower)
    case (Earth, Earth) => "Thuần Khôn"
    case (Earth, Thunder) => "Địa Lôi Phục"
    case (Earth, Water) => "Địa Thủy Sư"
    case (Earth, Mountain) => "Địa Sơn Khiêm"
    case (Thunder, Earth) => "Lôi Địa Dự"
    case (Thunder, Thunder) => "Thuần Chấn"
    case (Thunder, Water) => "Lôi Thủy Giải"
    case (Thunder, Mountain) => "Lôi Sơn Tiểu Quá"
    case (Water, Earth) => "Thủy Địa Tỷ"
    case (Water, Thunder) => "Thủy Lôi Truân"
    case (Water, Water) => "Thuần Khảm"
    case (Water, Mountain) => "Thủy Sơn Kiển"
    case (Mountain, Earth) => "Sơn Địa Bác"
    case (Mountain, Thunder) => "Sơn Lôi Di"
    case (Mountain, Water) => "Sơn Thủy Mông"
    case (Mountain, Mountain) => "Thuần Cấn"
    case (Earth, Wind) => "Địa Phong Thăng"
    case (Earth, Fire) => "Địa Hỏa Minh Di"
    case (Earth, Lake) => "Địa Trạch Lâm"
    case (Earth, Heaven) => "Địa Thiên Thái"
    case (Thunder, Wind) => "Lôi Phong Hằng"
    case (Thunder, Fire) => "Lôi Hỏa Phong"
    case (Thunder, Lake) => "Lôi Trạch Quy Muội"
    case (Thunder, Heaven) => "Lôi Thiên Đại Tráng"
    case (Water, Wind) => "Thủy Phong Tỉnh"
    case (Water, Fire) => "Thủy Hỏa Ký Tế"
    case (Water, Lake) => "Thủy Trạch Tiết"
    case (Water, Heaven) => "Thủy Thiên Nhu"
    case (Mountain, Wind) => "Sơn Phong Cổ"
    case (Mountain, Fire) => "Sơn Hỏa Bí"
    case (Mountain, Lake) => "Sơn Trạch Tốn"
    case (Mountain, Heaven) => "Sơn Thiên Đại Súc"
    case (Wind, Earth) => "Phong Địa Quan"
    case (Wind, Thunder) => "Phong Lôi Ích"
    case (Wind, Water) => "Phong Thủy Hoán"
    case (Wind, Mountain) => "Phong Sơn Tiệm"
    case (Fire, Earth) => "Hỏa Địa Tấn"
    case (Fire, Thunder) => "Hỏa Lôi Phệ Hạp"
    case (Fire, Water) => "Hỏa Thủy Vị Tế"
    case (Fire, Mountain) => "Hỏa Sơn Lữ"
    case (Lake, Earth) => "Trạch Địa Tụy"
    case (Lake, Thunder) => "Trạch Lôi Tùy"
    case (Lake, Water) => "Trạch Thủy Khốn"
    case (Lake, Mountain) => "Trạch Sơn Hàm"
    case (Heaven, Earth) => "Thiên Địa Bĩ"
    case (Heaven, Thunder) => "Thiên Lôi Vô Vọng"
    case (Heaven, Water) => "Thiên Thủy Tụng"
    case (Heaven, Mountain) => "Thiên Sơn Độn"
    case (Wind, Wind) => "Thuần Tốn"
    case (Wind, Fire) => "Phong Hỏa Gia Nhân"
    case (Wind, Lake) => "Phong Trạch Trung Phu"
    case (Wind, Heaven) => "Phong Thiên Tiểu Súc"
    case (Fire, Wind) => "Hỏa Phong Đỉnh"
    case (Fire, Fire) => "Thuần Ly"
    case (Fire, Lake) => "Hỏa Trạch Khuê"
    case (Fire, Heaven) => "Hỏa Thiên Đại Hữu"
    case (Lake, Wind) => "Trạch Phong Đại Quá"
    case (Lake, Fire) => "Trạch Hỏa Cách"
    case (Lake, Lake) => "Thuần Đoài"
    case (Lake, Heaven) => "Trạch Thiên Quải"
    case (Heaven, Wind) => "Thiên Phong Cấu"
    case (Heaven, Fire) => "Thiên Hỏa Đồng Nhân"
    case (Heaven, Lake) => "Thiên Trạch Lý"
    case (Heaven, Heaven) => "Thuần Càn"
  }

  /**
   * The number of the `HEXAGRAM_DATA` entry whose display name is
   * `FullHexagramName(upper, lower)`; the pair order follows
   * `fullHexagramMap`.
   */
  function HexagramNumber(upper: Trigram, lower: Trigram): (n: int)
    ensures 1 <= n <= 64
  {
    match (upper, lower)
    case (Earth, Earth) => 2
    case (Earth, Thunder) => 24
    case (Earth, Water) => 7
    case (Earth, Mountain) => 15
    case (Thunder, Earth) => 16
    case (Thunder, Thunder) => 51
    case (Thunder, Water) => 40
    case (Thunder, Mountain) => 62
    case (Water, Earth) => 8
    case (Water, Thunder) => 3
    case (Water, Water) => 29
    case (Water, Mountain) => 39
    case (Mountain, Earth) => 23
    case (Mountain, Thunder) => 27
    case (Mountain, Water) => 4
    case (Mountain, Mountain) => 52
    case (Earth, Wind) => 46
    case (Earth, Fire) => 36
    case (Earth, Lake) => 19
    case (Earth, Heaven) => 11
    case (Thunder, Wind) => 32
    case (Thunder, Fire) => 55
    case (Thunder, Lake) => 54
    case (Thunder, Heaven) => 34
    case (Water, Wind) => 48
    case (Water, Fire) => 63
    case (Water, Lake) => 60
    case (Water, Heaven) => 5
    case (Mountain, Wind) => 18
    case (Mountain, Fire) => 22
    case (Mountain, Lake) => 41
    case (Mountain, Heaven) => 26
    case (Wind, Earth) => 20
    case (Wind, Thunder) => 42
    case (Wind, Water) => 59
    case (Wind, Mountain) => 53
    case (Fire, Earth) => 35
    case (Fire, Thunder) => 21
    case (Fire, Water) => 64
    case (Fire, Mountain) => 56
    case (Lake, Earth) => 45
    case (Lake, Thunder) => 17
    case (Lake, Water) => 47
    case (Lake, Mountain) => 31
    case (Heaven, Earth) => 12
    case (Heaven, Thunder) => 25
    case (Heaven, Water) => 6
    case (Heaven, Mountain) => 33
    case (Wind, Wind) => 57
    case (Wind, Fire) => 37
    case (Wind, Lake) => 61
    case (Wind, Heaven) => 9
    case (Fire, Wind) => 50
    case (Fire, Fire) => 30
    case (Fire, Lake) => 38
    case (Fire, Heaven) => 14
    case (Lake, Wind) => 28
    case (Lake, Fire) => 49
    case (Lake, Lake) => 58
    case (Lake, Heaven) => 43
    case (Heaven, Wind) => 44
    case (Heaven, Fire) => 13
    case (Heaven, Lake) => 10
    case (Heaven, Heaven) => 1
  }

  /**
   * `hexagramLookup.get(fullHexagramMap[`${upper}-${lower}`])`, resolved by
   * number: entry `HexagramNumber(upper, lower)` of `HEXAGRAM_DATA`.
   */
  function LookupHexagram(upper: Trigram, lower: Trigram): HexagramData
  {
    HexagramEntry(HexagramNumber(upper, lower))
  }

  /**
   * The hexagram an (upper, lower) pair looks up is drawn with the lower
   * trigram's lines below the upper trigram's.
   */
  lemma LookupHexagramDrawn(upper: Trigram, lower: Trigram)
    ensures LookupHexagram(upper, lower).number == HexagramNumber(upper, lower)
    ensures HexagramLines(LookupHexagram(upper, lower).number) == TrigramLines(lower) + TrigramLines(upper)
  {
    HexagramTrigramsOfNumber(upper, lower);
  }

  /**
   * The name chain holds for all 64 pairs: the name `fullHexagramMap` gives
   * a pair is present in `HEXAGRAM_DATA`, and the entry carrying it is the
   * one `LookupHexagram` returns, numbered `HexagramNumber(upper, lower)`.
   */
  lemma HexagramNamesAgree(upper: Trigram, lower: Trigram)
    ensures LookupHexagram(upper, lower) == HEXAGRAM_DATA[HexagramNumber(upper, lower) - 1]
    ensures LookupHexagram(upper, lower).vietnameseName == FullHexagramName(upper, lower)
    ensures LookupHexagram(upper, lower).number == HexagramNumber(upper, lower)
  {
    HexagramDataNumbered(HexagramNumber(upper, lower));
    match upper
    case Heaven => NamesAgreeAboveHeaven(lower);
    case Water => NamesAgreeAboveWater(lower);
    case Mountain => NamesAgreeAboveMountain(lower);
    case Thunder => NamesAgreeAboveThunder(lower);
    case Wind => NamesAgreeAboveWind(lower);
    case Fire => NamesAgreeAboveFire(lower);
    case Earth => NamesAgreeAboveEarth(lower);
    case Lake => NamesAgreeAboveLake(lower);
  }

  /** Proof split for `HexagramNamesAgree`: the eight pairs with Heaven above. */
  lemma NamesAgreeAboveHeaven(lower: Trigram)
    ensures LookupHexagram(Heaven, lower).vietnameseName == FullHexagramName(Heaven, lower)
  {
    match lower
    case Heaven =>
    case Water =>
    case Mountain =>
    case Thunder =>
    case Wind =>
    case Fire =>
    case Earth =>
    case Lake =>
  }

  /** Proof split for `HexagramNamesAgree`: the eight pairs with Water above. */
  lemma NamesAgreeAboveWater(lower: Trigram)
    ensures LookupHexagram(Water, lower).vietnameseName == FullHexagramName(Water, lower)
  {
    match lower
    case Heaven =>
    case Water =>
    case Mountain =>
    case Thunder =>
    case Wind =>
    case Fire =>
    case Earth =>
    case Lake =>
  }

  /** Proof split for `HexagramNamesAgree`: the eight pairs with Mountain above. */
  lemma NamesAgreeAboveMountain(lower: Trigram)
    ensures LookupHexagram(Mountain, lower).vietnameseName == FullHexagramName(Mountain, lower)
  {
    match lower
    case Heaven =>
    case Water =>
    case Mountain =>
    case Thunder =>
    case Wind =>
    case Fire =>
    case Earth =>
    case Lake =>
  }

  /** Proof split for `HexagramNamesAgree`: the eight pairs with Thunder above. */
  lemma NamesAgreeAboveThunder(lower: Trigram)
    ensures LookupHexagram(Thunder, lower).vietnameseName == FullHexagramName(Thunder, lower)
  {
    match lower
    case Heaven =>
    case Water =>
    case Mountain =>
    case Thunder =>
    case Wind =>
    case Fire =>
    case Earth =>
    case Lake =>
  }

  /** Proof split for `HexagramNamesAgree`: the eight pairs with Wind above. */
  lemma NamesAgreeAboveWind(lower: Trigram)
    ensures LookupHexagram(Wind, lower).vietnameseName == FullHexagramName(Wind, lower)
  {
    match lower
    case Heaven =>
    case Water =>
    case Mountain =>
    case Thunder =>
    case Wind =>
    case Fire =>
    case Earth =>
    case Lake =>
  }

  /** Proof split for `HexagramNamesAgree`: the eight pairs with Fire above. */
  lemma NamesAgreeAboveFire(lower: Trigram)
    ensures LookupHexagram(Fire, lower).vietnameseName == FullHexagramName(Fire, lower)
  {
    match lower
    case Heaven =>
    case Water =>
    case Mountain =>
    case Thunder =>
    case Wind =>
    case Fire =>
    case Earth =>
    case Lake =>
  }

  /** Proof split for `HexagramNamesAgree`: the eight pairs with Earth above. */
  lemma NamesAgreeAboveEarth(lower: Trigram)
    ensures LookupHexagram(Earth, lower).vietnameseName == FullHexagramName(Earth, lower)
  {
    match lower
    case Heaven =>
    case Water =>
    case Mountain =>
    case Thunder =>
    case Wind =>
    case Fire =>
    case Earth =>
    case Lake =>
  }

  /** Proof split for `HexagramNamesAgree`: the eight pairs with Lake above. */
  lemma NamesAgreeAboveLake(lower: Trigram)
    ensures LookupHexagram(Lake, lower).vietnameseName == FullHexagramName(Lake, lower)
  {
    match lower
    case Heaven =>
    case Water =>
    case Mountain =>
    case Thunder =>
    case Wind =>
    case Fire =>
    case Earth =>
    case Lake =>
  }

  /**
   * The (upper, lower) decomposition of hexagram number `n`: every number
   * in 1..64 is the number of some trigram pair.
   */
  function HexagramTrigrams(n: int): (p: (Trigram, Trigram))
    requires 1 <= n <= 64
    ensures HexagramNumber(p.0, p.1) == n
  {
    match n
    case 1 => (Heaven, Heaven)
    case 2 => (Earth, Earth)
    case 3 => (Water, Thunder)
    case 4 => (Mountain, Water)
    case 5 => (Water, Heaven)
    case 6 => (Heaven, Water)
    case 7 => (Earth, Water)
    case 8 => (Water, Earth)
    case 9 => (Wind, Heaven)
    case 10 => (Heaven, Lake)
    case 11 => (Earth, Heaven)
    case 12 => (Heaven, Earth)
    case 13 => (Heaven, Fire)
    case 14 => (Fire, Heaven)
    case 15 => (Earth, Mountain)
    case 16 => (Thunder, Earth)
    case 17 => (Lake, Thunder)
    case 18 => (Mountain, Wind)
    case 19 => (Earth, Lake)
    case 20 => (Wind, Earth)
    case 21 => (Fire, Thunder)
    case 22 => (Mountain, Fire)
    case 23 => (Mountain, Earth)
    case 24 => (Earth, Thunder)
    case 25 => (Heaven, Thunder)
    case 26 => (Mountain, Heaven)
    case 27 => (Mountain, Thunder)
    case 28 => (Lake, Wind)
    case 29 => (Water, Water)
    case 30 => (Fire, Fire)
    case 31 => (Lake, Mountain)
    case 32 => (Thunder, Wind)
    case 33 => (Heaven, Mountain)
    case 34 => (Thunder, Heaven)
    case 35 => (Fire, Earth)
    case 36 => (Earth, Fire)
    case 37 => (Wind, Fire)
    case 38 => (Fire, Lake)
    case 39 => (Water, Mountain)
    case 40 => (Thunder, Water)
    case 41 => (Mountain, Lake)
    case 42 => (Wind, Thunder)
    case 43 => (Lake, Heaven)
    case 44 => (Heaven, Wind)
    case 45 => (Lake, Earth)
    case 46 => (Earth, Wind)
    case 47 => (Lake, Water)
    case 48 => (Water, Wind)
    case 49 => (Lake, Fire)
    case 50 => (Fire, Wind)
    case 51 => (Thunder, Thunder)
    case 52 => (Mountain, Mountain)
    case 53 => (Wind, Mountain)
    case 54 => (Thunder, Lake)
    case 55 => (Thunder, Fire)
    case 56 => (Fire, Mountain)
    case 57 => (Wind, Wind)
    case 58 => (Lake, Lake)
    case 59 => (Wind, Water)
    case 60 => (Water, Lake)
    case 61 => (Wind, Lake)
    case 62 => (Thunder, Mountain)
    case 63 => (Water, Fire)
    case 64 => (Fire, Water)
  }

  /** The decomposition gives back the pair a number came from. */
  lemma HexagramTrigramsOfNumber(upper: Trigram, lower: Trigram)
    ensures HexagramTrigrams(HexagramNumber(upper, lower)) == (upper, lower)
  {
    match upper
    case Heaven => TrigramsOfNumberAboveHeaven(lower);
    case Water => TrigramsOfNumberAboveWater(lower);
    case Mountain => TrigramsOfNumberAboveMountain(lower);
    case Thunder => TrigramsOfNumberAboveThunder(lower);
    case Wind => TrigramsOfNumberAboveWind(lower);
    case Fire => TrigramsOfNumberAboveFire(lower);
    case Earth => TrigramsOfNumberAboveEarth(lower);
    case Lake => TrigramsOfNumberAboveLake(lower);
  }

  /** Proof split for `HexagramTrigramsOfNumber`: the eight pairs with Heaven above. */
  lemma TrigramsOfNumberAboveHeaven(lower: Trigram)
    ensures HexagramTrigrams(HexagramNumber(Heaven, lower)) == (Heaven, lower)
  {
    match lower
    case Heaven =>
    case Water =>
    case Mountain =>
    case Thunder =>
    case Wind =>
    case Fire =>
    case Earth =>
    case Lake =>
  }

  /** Proof split for `HexagramTrigramsOfNumber`: the eight pairs with Water above. */
  lemma TrigramsOfNumberAboveWater(lower: Trigram)
    ensures HexagramTrigrams(HexagramNumber(Water, lower)) == (Water, lower)
  {
    match lower
    case Heaven =>
    case Water =>
    case Mountain =>
    case Thunder =>
    case Wind =>
    case Fire =>
    case Earth =>
    case Lake =>
  }

  /** Proof split for `HexagramTrigramsOfNumber`: the eight pairs with Mountain above. */
  lemma TrigramsOfNumberAboveMountain(lower: Trigram)
    ensures HexagramTrigrams(HexagramNumber(Mountain, lower)) == (Mountain, lower)
  {
    match lower
    case Heaven =>
    case Water =>
    case Mountain =>
    case Thunder =>
    case Wind =>
    case Fire =>
    case Earth =>
    case Lake =>
  }

  /** Proof split for `HexagramTrigramsOfNumber`: the eight pairs with Thunder above. */
  lemma TrigramsOfNumberAboveThunder(lower: Trigram)
    ensures HexagramTrigrams(HexagramNumber(Thunder, lower)) == (Thunder, lower)
  {
    match lower
    case Heaven =>
    case Water =>
    case Mountain =>
    case Thunder =>
    case Wind =>
    case Fire =>
    case Earth =>
    case Lake =>
  }

  /** Proof split for `HexagramTrigramsOfNumber`: the eight pairs with Wind above. */
  lemma TrigramsOfNumberAboveWind(lower: Trigram)
    ensures HexagramTrigrams(HexagramNumber(Wind, lower)) == (Wind, lower)
  {
    match lower
    case Heaven =>
    case Water =>
    case Mountain =>
    case Thunder =>
    case Wind =>
    case Fire =>
    case Earth =>
    case Lake =>
  }

  /** Proof split for `HexagramTrigramsOfNumber`: the eight pairs with Fire above. */
  lemma TrigramsOfNumberAboveFire(lower: Trigram)
    ensures HexagramTrigrams(HexagramNumber(Fire, lower)) == (Fire, lower)
  {
    match lower
    case Heaven =>
    case Water =>
    case Mountain =>
    case Thunder =>
    case Wind =>
    case Fire =>
    case Earth =>
    case Lake =>
  }

  /** Proof split for `HexagramTrigramsOfNumber`: the eight pairs with Earth above. */
  lemma TrigramsOfNumberAboveEarth(lower: Trigram)
    ensures HexagramTrigrams(HexagramNumber(Earth, lower)) == (Earth, lower)
  {
    match lower
    case Heaven =>
    case Water =>
    case Mountain =>
    case Thunder =>
    case Wind =>
    case Fire =>
    case Earth =>
    case Lake =>
  }

  /** Proof split for `HexagramTrigramsOfNumber`: the eight pairs with Lake above. */
  lemma TrigramsOfNumberAboveLake(lower: Trigram)
    ensures HexagramTrigrams(HexagramNumber(Lake, lower)) == (Lake, lower)
  {
    match lower
    case Heaven =>
    case Water =>
    case Mountain =>
    case Thunder =>
    case Wind =>
    case Fire =>
    case Earth =>
    case Lake =>
  }

  /**
   * The pair-to-number map is a bijection from the 64 trigram pairs onto
   * 1..64: different pairs get different numbers.
   */
  lemma HexagramNumberInjective(u1: Trigram, l1: Trigram, u2: Trigram, l2: Trigram)
    requires HexagramNumber(u1, l1) == HexagramNumber(u2, l2)
    ensures u1 == u2 && l1 == l2
  {
    HexagramTrigramsOfNumber(u1, l1);
    HexagramTrigramsOfNumber(u2, l2);
  }

  /**
   * The six lines of hexagram `n`, bottom first: its lower trigram's three
   * lines, then its upper trigram's.
   */
  function HexagramLines(n: int): seq<LineType>
    requires 1 <= n <= 64
  {
    var (upper, lower) := HexagramTrigrams(n);
    TrigramLines(lower) + TrigramLines(upper)
  }
}
