/**
  The expert registry `EXPERTS` of app.py: a fixed two-entry dictionary from the
  key "A" or "B" to a persona's display label and its system prompt, never mutated,
  and the radio selector built from it.
 */
module Personas {

  /** One entry of `EXPERTS`: `{"label": ..., "system": ...}`. */
  datatype Persona = Persona(displayLabel: string, system: string)

  const TravelPlanner := Persona(
    "A：旅行プランナー",
    "あなたは旅行プランの専門家です。旅行者の希望や制約に合わせ、現実的で安全な旅程を日本語で提案してください。必要に応じて費用感・移動手段・注意事項も補足してください。")

  const Historian := Persona(
    "B：歴史研究者",
    "あなたは歴史の専門家です。質問に対して史実に基づき、日本語でわかりやすく背景・因果・重要人物を整理して説明してください。推測は推測と明確に区別してください。")

  /** `EXPERTS`: exactly the keys "A" and "B", each with a non-empty label and a
      non-empty system prompt, and no two personas sharing a label or a prompt. */
  function Experts(): (m: map<string, Persona>)
    ensures m.Keys == {"A", "B"}
    ensures forall k :: k in m ==> m[k].displayLabel != [] && m[k].system != []
    ensures m["A"].displayLabel != m["B"].displayLabel && m["A"].system != m["B"].system
  {
    map["A" := TravelPlanner, "B" := Historian]
  }

  /** `list(EXPERTS.keys())`, the radio options, in the dictionary's insertion order:
      every key exactly once and nothing else. */
  function RadioOptions(): (ks: seq<string>)
    ensures |ks| == |Experts()|
    ensures forall k :: k in ks <==> k in Experts()
    ensures forall i, j :: 0 <= i < j < |ks| ==> ks[i] != ks[j]
    ensures ks[0] == "A"
  {
    ["A", "B"]
  }

  /** The radio's `format_func`: the text shown for option `k`, looked up in `EXPERTS`. */
  function OptionLabel(k: string): (shown: string)
    requires k in Experts()
  {
    Experts()[k].displayLabel
  }

  /** Every option the selector offers is shown with a non-empty label, and distinct
      options are shown with distinct labels, so the user can tell them apart. */
  lemma OptionLabelsDistinguish(i: nat, j: nat)
    requires i < |RadioOptions()| && j < |RadioOptions()|
    ensures RadioOptions()[i] in Experts() && OptionLabel(RadioOptions()[i]) != []
    ensures i != j ==> OptionLabel(RadioOptions()[i]) != OptionLabel(RadioOptions()[j])
  {
  }
}
