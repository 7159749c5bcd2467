/**
 * The emoji that end the AI coach's messages in src/components/AIReminderSystem.tsx.
 * The source file does not hold them as emoji: each was once encoded as
 * UTF-8, read back as Windows-1252 and saved again, so the messages end
 * in runs of Latin letters and punctuation instead.
 */
module CoachEmoji {
  import opened Icons
  import opened Encoding

  /** The four wordings of `generateMotivationalMessage`. */
  datatype MessageTier = JustStarted | GreatProgress | SoClose | Crushed

  /** The emoji each wording ends with. */
  function TierEmoji(t: MessageTier): string {
    match t
    case JustStarted => Runner
    case GreatProgress => Biceps
    case SoClose => "\U{1F3AF}"
    case Crushed => "\U{1F3C6}"
  }

  /** The weekly summary's emoji, a bar chart. */
  const ChartEmoji: string := "\U{1F4CA}"

  /**
   * The endings as the source file holds them: its UTF-8 emoji were once
   * read as Windows-1252 and saved again, so each is a run of Latin
   * letters and punctuation.
   */
  function AsWrittenEmoji(t: MessageTier): string {
    match t
    case JustStarted => "ðŸƒâ€â™‚ï¸"
    case GreatProgress => "ðŸ’ª"
    case SoClose => "ðŸŽ¯"
    case Crushed => "ðŸ†"
  }

  const AsWrittenChartEmoji: string := "ðŸ“Š"

  /** Each ending in the source is exactly the misreading of the emoji meant there. */
  lemma GarbledEmoji(t: MessageTier)
    ensures AsWrittenEmoji(t) == Misread(TierEmoji(t))
    ensures AsWrittenEmoji(t) != TierEmoji(t)
  {
    match t
    case JustStarted => GarbledRunner();
    case GreatProgress => GarbledBiceps();
    case SoClose => GarbledTarget();
    case Crushed => GarbledTrophy();
  }

  /** U+1F3C3 U+200D U+2642 U+FE0F: runner, joiner, male sign, emoji style. */
  lemma GarbledRunner()
    ensures "ðŸƒâ€â™‚ï¸" == Misread(Runner)
  {
    MisreadRunner();
    MisreadJoiner();
    MisreadMaleSign();
    MisreadEmojiStyle();
    MisreadFour('\U{1F3C3}', '\U{200D}', '\U{2642}', '\U{FE0F}', "ðŸƒ", "â€", "â™‚", "ï¸");
  }

  lemma MisreadFour(a: char, b: char, c: char, d: char, ta: string, tb: string, tc: string, td: string)
    requires Misread([a]) == ta && Misread([b]) == tb && Misread([c]) == tc && Misread([d]) == td
    ensures Misread([a, b, c, d]) == ta + tb + tc + td
  {
    assert [a, b, c, d] == [a] + [b] + [c] + [d];
    MisreadAppend([a] + [b] + [c], [d]);
    MisreadAppend([a] + [b], [c]);
    MisreadAppend([a], [b]);
  }

  lemma MisreadOne(c: char, bytes: seq<Byte>, text: string)
    requires Utf8Char(c) == bytes && Cp1252(bytes) == text
    ensures Misread([c]) == text
  {
    assert [c][1..] == [];
  }

  lemma MisreadRunner()
    ensures Misread("\U{1F3C3}") == "ðŸƒ"
  {
    RunnerBytes();
    MisreadOne('\U{1F3C3}', [0xF0, 0x9F, 0x8F, 0x83], "ðŸƒ");
  }

  lemma MisreadJoiner()
    ensures Misread("\U{200D}") == "â€"
  {
    JoinerBytes();
    MisreadOne('\U{200D}', [0xE2, 0x80, 0x8D], "â€");
  }

  lemma MisreadMaleSign()
    ensures Misread("\U{2642}") == "â™‚"
  {
    MaleSignBytes();
    MisreadOne('\U{2642}', [0xE2, 0x99, 0x82], "â™‚");
  }

  lemma MisreadEmojiStyle()
    ensures Misread("\U{FE0F}") == "ï¸"
  {
    EmojiStyleBytes();
    MisreadOne('\U{FE0F}', [0xEF, 0xB8, 0x8F], "ï¸");
  }

  lemma GarbledBiceps()
    ensures "ðŸ’ª" == Misread(Biceps)
  {
    BicepsBytes();
    MisreadOne('\U{1F4AA}', [0xF0, 0x9F, 0x92, 0xAA], "ðŸ’ª");
  }

  lemma GarbledTarget()
    ensures "ðŸŽ¯" == Misread("\U{1F3AF}")
  {
    TargetBytes();
    MisreadOne('\U{1F3AF}', [0xF0, 0x9F, 0x8E, 0xAF], "ðŸŽ¯");
  }

  lemma GarbledTrophy()
    ensures "ðŸ†" == Misread("\U{1F3C6}")
  {
    TrophyBytes();
    MisreadOne('\U{1F3C6}', [0xF0, 0x9F, 0x8F, 0x86], "ðŸ†");
  }

  lemma GarbledChartEmoji()
    ensures AsWrittenChartEmoji == Misread(ChartEmoji) && AsWrittenChartEmoji != ChartEmoji
  {
    ChartBytes();
    MisreadOne('\U{1F4CA}', [0xF0, 0x9F, 0x93, 0x8A], "ðŸ“Š");
  }

  /** U+1F3C3, the runner; 0x8F has no character. */
  lemma RunnerBytes()
    ensures Utf8Char('\U{1F3C3}') == [0xF0, 0x9F, 0x8F, 0x83]
    ensures Cp1252([0xF0, 0x9F, 0x8F, 0x83]) == "ðŸƒ"
  {
    Utf8Four('\U{1F3C3}', 0xF0, 0x9F, 0x8F, 0x83);
    Cp1252Four(0xF0, 0x9F, 0x8F, 0x83);
    assert Cp1252Char(0xF0) == [0xF0 as char];
    assert Cp1252Char(0x9F) == ['\U{0178}'];
    assert Cp1252Char(0x8F) == [];
    assert Cp1252Char(0x83) == ['\U{0192}'];
  }

  /** U+200D, the zero-width joiner; 0x8D has no character. */
  lemma JoinerBytes()
    ensures Utf8Char('\U{200D}') == [0xE2, 0x80, 0x8D]
    ensures Cp1252([0xE2, 0x80, 0x8D]) == "â€"
  {
    Utf8Three('\U{200D}', 0xE2, 0x80, 0x8D);
    Cp1252Three(0xE2, 0x80, 0x8D);
    assert Cp1252Char(0xE2) == [0xE2 as char];
    assert Cp1252Char(0x80) == ['\U{20AC}'];
    assert Cp1252Char(0x8D) == [];
  }

  /** U+2642, the male sign. */
  lemma MaleSignBytes()
    ensures Utf8Char('\U{2642}') == [0xE2, 0x99, 0x82]
    ensures Cp1252([0xE2, 0x99, 0x82]) == "â™‚"
  {
    Utf8Three('\U{2642}', 0xE2, 0x99, 0x82);
    Cp1252Three(0xE2, 0x99, 0x82);
    assert Cp1252Char(0xE2) == [0xE2 as char];
    assert Cp1252Char(0x99) == ['\U{2122}'];
    assert Cp1252Char(0x82) == ['\U{201A}'];
  }

  /** U+FE0F, the emoji presentation selector; 0x8F has no character. */
  lemma EmojiStyleBytes()
    ensures Utf8Char('\U{FE0F}') == [0xEF, 0xB8, 0x8F]
    ensures Cp1252([0xEF, 0xB8, 0x8F]) == "ï¸"
  {
    Utf8Three('\U{FE0F}', 0xEF, 0xB8, 0x8F);
    Cp1252Three(0xEF, 0xB8, 0x8F);
    assert Cp1252Char(0xEF) == [0xEF as char];
    assert Cp1252Char(0xB8) == [0xB8 as char];
    assert Cp1252Char(0x8F) == [];
  }

  /** U+1F4AA, the flexed biceps. */
  lemma BicepsBytes()
    ensures Utf8Char('\U{1F4AA}') == [0xF0, 0x9F, 0x92, 0xAA]
    ensures Cp1252([0xF0, 0x9F, 0x92, 0xAA]) == "ðŸ’ª"
  {
    Utf8Four('\U{1F4AA}', 0xF0, 0x9F, 0x92, 0xAA);
    Cp1252Four(0xF0, 0x9F, 0x92, 0xAA);
    assert Cp1252Char(0xF0) == [0xF0 as char];
    assert Cp1252Char(0x9F) == ['\U{0178}'];
    assert Cp1252Char(0x92) == ['\U{2019}'];
    assert Cp1252Char(0xAA) == [0xAA as char];
  }

  /** U+1F3AF, the direct hit. */
  lemma TargetBytes()
    ensures Utf8Char('\U{1F3AF}') == [0xF0, 0x9F, 0x8E, 0xAF]
    ensures Cp1252([0xF0, 0x9F, 0x8E, 0xAF]) == "ðŸŽ¯"
  {
    Utf8Four('\U{1F3AF}', 0xF0, 0x9F, 0x8E, 0xAF);
    Cp1252Four(0xF0, 0x9F, 0x8E, 0xAF);
    assert Cp1252Char(0xF0) == [0xF0 as char];
    assert Cp1252Char(0x9F) == ['\U{0178}'];
    assert Cp1252Char(0x8E) == ['\U{017D}'];
    assert Cp1252Char(0xAF) == [0xAF as char];
  }

  /** U+1F3C6, the trophy; 0x8F has no character. */
  lemma TrophyBytes()
    ensures Utf8Char('\U{1F3C6}') == [0xF0, 0x9F, 0x8F, 0x86]
    ensures Cp1252([0xF0, 0x9F, 0x8F, 0x86]) == "ðŸ†"
  {
    Utf8Four('\U{1F3C6}', 0xF0, 0x9F, 0x8F, 0x86);
    Cp1252Four(0xF0, 0x9F, 0x8F, 0x86);
    assert Cp1252Char(0xF0) == [0xF0 as char];
    assert Cp1252Char(0x9F) == ['\U{0178}'];
    assert Cp1252Char(0x8F) == [];
    assert Cp1252Char(0x86) == ['\U{2020}'];
  }

  /** U+1F4CA, the bar chart. */
  lemma ChartBytes()
    ensures Utf8Char('\U{1F4CA}') == [0xF0, 0x9F, 0x93, 0x8A]
    ensures Cp1252([0xF0, 0x9F, 0x93, 0x8A]) == "ðŸ“Š"
  {
    Utf8Four('\U{1F4CA}', 0xF0, 0x9F, 0x93, 0x8A);
    Cp1252Four(0xF0, 0x9F, 0x93, 0x8A);
    assert Cp1252Char(0xF0) == [0xF0 as char];
    assert Cp1252Char(0x9F) == ['\U{0178}'];
    assert Cp1252Char(0x93) == ['\U{201C}'];
    assert Cp1252Char(0x8A) == ['\U{0160}'];
  }
}
