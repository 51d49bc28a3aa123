/**
 * The English-to-Chinese message table of the test window and its lookup,
 * which falls back to the English text for a message the table lacks.
 */
module Translation {

  const Translations: map<string, string> := map[
    "Response Time Test" := "反应时间测试",
    "Click 'Start Test' to begin" := "点击'开始测试'按钮开始",
    "Start Test" := "开始测试",
    "Prepare for" := "准备",
    "Press arrow key when you hear the sound" := "听到声音后按相应方向键",
    "Press arrow key when you hear the direction" := "听到方向后按相应方向键",
    "Incorrect! Expected" := "错误！应为",
    "Response time" := "反应时间",
    "seconds" := "秒",
    "Test Results" := "测试结果",
    "Test Complete" := "测试完成",
    "Average" := "平均",
    "Forward" := "前进",
    "Backward" := "后退",
    "Left" := "左转",
    "Right" := "右转",
    "Stop" := "停止",
    "Baseline" := "基准测试",
    "Speech" := "语音",
    "Audio" := "音频"
  ]

  /** The table's translation of a message; any other text comes back unchanged. */
  function Translate(text: string): (r: string)
    ensures text !in Translations ==> r == text
    ensures text in Translations ==> r in Translations.Values && r !in Translations
  {
    NoTranslationIsAKey();
    if text in Translations then Translations[text] else text
  }

  /** Text that starts with a 7-bit ASCII character. */
  predicate StartsAscii(s: string)
  {
    |s| > 0 && s[0] < '\U{80}'
  }

  /** Every English message starts with an ASCII character. */
  lemma MessagesStartAscii()
    ensures forall k :: k in Translations ==> StartsAscii(k)
  {
    forall k | k in Translations
      ensures StartsAscii(k)
    {
      assert k[0] in "RCSPIsTAFBL";
    }
  }

  /** Every translation starts with a Chinese character. */
  lemma TranslationsStartChinese()
    ensures forall k :: k in Translations ==> !StartsAscii(Translations[k])
  {
    forall v | v in Translations.Values
      ensures !StartsAscii(v)
    {
      assert v[0] in "反点开准听错秒测平前后左右停基语音";
    }
  }

  /** No translation is itself a message of the table. */
  lemma NoTranslationIsAKey()
    ensures forall k :: k in Translations ==> Translations[k] !in Translations
  {
    MessagesStartAscii();
    TranslationsStartChinese();
  }

  /** Translating twice is translating once. */
  lemma TranslateIdempotent(text: string)
    ensures Translate(Translate(text)) == Translate(text)
  {
    NoTranslationIsAKey();
  }

  /** The lookup changes exactly the messages of the table. */
  lemma TranslateChangesExactlyTableMessages(text: string)
    ensures Translate(text) != text <==> text in Translations
  {
    NoTranslationIsAKey();
  }

  /** Messages the window shows that the table lacks stay in English. */
  lemma UntranslatedMessages()
    ensures Translate("Connect") == "Connect"
    ensures Translate("Click 'Connect' to begin") == "Click 'Connect' to begin"
    ensures Translate("Eyelids") == "Eyelids"
    ensures Translate("Press arrow key when you see the Eyelids signal")
         == "Press arrow key when you see the Eyelids signal"
  {
  }
}
