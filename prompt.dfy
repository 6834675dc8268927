/** The instruction sent to the vision model: a fixed base template and the
    optional clause that restricts reading to gauges inside a yellow marker. */
module Prompt {

  /** Base instruction (gauge_reader_app.py lines 65-71): the triple-quoted Python
      literal, which starts and ends with a newline, put together from its lines. */
  const PromptTemplate: string :=
    "\n" + RoleLine + "\n" + KindLine + "\n" + ValueLine + "\n" + UnitLine + "\n" + FallbackLine + "\n"

  /** Line 66: the model's role and the request to list every gauge in a table. */
  const RoleLine: string :=
    "あなたは工業用計測器の読み取りに特化した専門家です。"
    + "提供された画像の中から、"
    + "圧力計、温度計、流量計、デジタルメーターなどの計測器をすべて特定してください。"
    + "特定した各計測器について、"
    + "以下の情報をMarkdownの表形式で出力してください。"

  /** Line 67: the instrument-kind column. */
  const KindLine: string :=
    "- **計測器の種類**: (例: 圧力計, デジタル温度計)"

  /** Line 68: the reading column, estimated from the needle where there is one. */
  const ValueLine: string :=
    "- **読み取った数値**: 可能な限り正確な数値を読み取ってください。"
    + "針が指している値を推定してください。"

  /** Line 69: the unit column. */
  const UnitLine: string :=
    "- **単位**: (例: MPa, °C, L/min, V)"

  /** Line 70: what to say when a value is illegible or no gauge is present. */
  const FallbackLine: string :=
    "もし数値や単位が不鮮明で読み取れない場合は、その旨を記載してください。"
    + "画像内に計測器が見つからない場合は、"
    + "「画像内に計測器は見つかりませんでした。」と明確に報告してください。"

  /** Region-restriction clause (gauge_reader_app.py line 72). */
  const OptionPromptAddition: string :=
    "\n**追加指示:**\n"
    + "画像内に黄色い円やマーカーで囲まれている箇所があります。"
    + "その囲まれている内部にある計測器の数値だけを読み取ってください。"

  /** `t` occurs in `s` starting at offset `i`. */
  predicate OccursAt(s: string, t: string, i: int)
  {
    0 <= i && i + |t| <= |s| && s[i..i + |t|] == t
  }

  /** `t` is a substring of `s`. */
  predicate Contains(s: string, t: string)
  {
    exists i | 0 <= i <= |s| :: OccursAt(s, t, i)
  }

  // '追', the fourth character of the clause, occurs on no line of the base
  // instruction; the three longer lines are checked one lemma each.

  lemma RoleLineLacksMarker() ensures '追' !in RoleLine {}

  lemma ValueLineLacksMarker() ensures '追' !in ValueLine {}

  lemma FallbackLineLacksMarker() ensures '追' !in FallbackLine {}

  /** The base instruction does not contain the clause: wherever the clause
      started, its '追' would be a character of the template. */
  lemma TemplateLacksClause()
    ensures !Contains(PromptTemplate, OptionPromptAddition)
  {
    assert OptionPromptAddition[3] == '追';
    RoleLineLacksMarker();
    ValueLineLacksMarker();
    FallbackLineLacksMarker();
    assert '追' !in PromptTemplate;
  }

  /** Lines 108-109: start from the template and append the clause when the
      checkbox is ticked. The template is always a prefix, the only thing ever
      appended is the clause, and the clause is present exactly when enabled. */
  method BuildPrompt(isOptionEnabled: bool) returns (finalPrompt: string)
    ensures finalPrompt == if isOptionEnabled then PromptTemplate + OptionPromptAddition else PromptTemplate
    ensures PromptTemplate <= finalPrompt
    ensures finalPrompt[|PromptTemplate|..] == if isOptionEnabled then OptionPromptAddition else ""
    ensures Contains(finalPrompt, OptionPromptAddition) <==> isOptionEnabled
  {
    finalPrompt := PromptTemplate;
    if isOptionEnabled {
      finalPrompt := finalPrompt + OptionPromptAddition;
      assert OccursAt(finalPrompt, OptionPromptAddition, |PromptTemplate|);
    } else {
      TemplateLacksClause();
    }
  }
}
