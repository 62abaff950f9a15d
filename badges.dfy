/** The badge lookups of the contacts table (`getTempStyles`, `getStageStyles`,
    `getSourceStyles`) and the avatar initials of a contact. The switches compare
    with `===`, so only the exact string matches a case; any other value, string or
    not, takes the default branch. */
module Badges {
  import opened Json
  import opened Text
  import opened Wrappers

  /** The temperature badge; `caption` is the source's `label`. */
  datatype TempStyle = TempStyle(bg: string, text: string, caption: string, icon: string, ring: string)

  /** The temperatures the page knows. */
  const KnownTemps: set<Value> := {Str("hot"), Str("warm"), Str("cold"), Str("frozen")}

  /** The label of a temperature the page does not know. */
  const UnspecifiedLabel := "غير محدد"

  /** `getTempStyles`. */
  function TempStyles(temp: Value): (r: TempStyle)
    ensures r.caption == UnspecifiedLabel <==> temp !in KnownTemps
    ensures r.ring != "" <==> temp == Str("hot")
    ensures r.icon == "" <==> temp !in KnownTemps
  {
    if temp == Str("hot") then TempStyle("bg-red-50", "text-red-600", "ساخن", "🔥", "ring-2 ring-red-400 animate-pulse")
    else if temp == Str("warm") then TempStyle("bg-amber-50", "text-amber-600", "دافئ", "⚠️", "")
    else if temp == Str("cold") then TempStyle("bg-blue-50", "text-blue-600", "بارد", "🧊", "")
    else if temp == Str("frozen") then TempStyle("bg-gray-50", "text-gray-600", "متجمد", "❄️", "")
    else TempStyle("bg-gray-50", "text-gray-600", UnspecifiedLabel, "", "")
  }

  /** The label names the temperature: two temperatures with the same label are the
      same known temperature, or both unknown. */
  lemma TempLabelsDistinguish(a: Value, b: Value)
    requires TempStyles(a).caption == TempStyles(b).caption
    ensures a in KnownTemps ==> a == b
    ensures a !in KnownTemps ==> b !in KnownTemps
  {
  }

  /** The stage badge; the label of an unknown stage is the stage value itself. */
  datatype StageStyle = StageStyle(bg: string, text: string, caption: Value)

  /** The pipeline stages the page knows. */
  const KnownStages: set<Value> :=
    {Str("contact"), Str("subscriber"), Str("lead"), Str("mql"), Str("sql"), Str("customer"), Str("frozen")}

  /** `getStageStyles`. */
  function StageStyles(stage: Value): (r: StageStyle)
    ensures stage !in KnownStages ==> r.caption == stage
    ensures stage in KnownStages ==> r.caption.Str? && r.caption != stage
  {
    if stage == Str("contact") then StageStyle("bg-gray-50", "text-gray-600", Str("Contact"))
    else if stage == Str("subscriber") then StageStyle("bg-blue-50", "text-blue-600", Str("Subscriber"))
    else if stage == Str("lead") then StageStyle("bg-yellow-50", "text-yellow-700", Str("Lead"))
    else if stage == Str("mql") then StageStyle("bg-orange-50", "text-orange-600", Str("MQL"))
    else if stage == Str("sql") then StageStyle("bg-red-100", "text-red-700", Str("SQL"))
    else if stage == Str("customer") then StageStyle("bg-green-50", "text-green-600", Str("Customer"))
    else if stage == Str("frozen") then StageStyle("bg-sky-50", "text-sky-600", Str("Frozen"))
    else StageStyle("bg-gray-50", "text-gray-600", stage)
  }

  /** Known stages have pairwise distinct labels. */
  lemma StageLabelsDistinct(a: Value, b: Value)
    requires a in KnownStages && b in KnownStages
    requires StageStyles(a).caption == StageStyles(b).caption
    ensures a == b
  {
  }

  /** An unknown stage spelled like a known stage's label is shown with that same
      label, so the label alone does not tell the stage. */
  lemma StageLabelAmbiguous()
    ensures Str("Lead") !in KnownStages
    ensures StageStyles(Str("Lead")).caption == StageStyles(Str("lead")).caption
  {
  }

  /** The contact sources the page knows. */
  const KnownSources: set<Value> := {Str("Instagram"), Str("Facebook"), Str("Email"), Str("Import"), Str("Manual")}

  /** The source badge. */
  datatype SourceStyle = SourceStyle(bg: string, caption: Value)

  /** `getSourceStyles`. */
  function SourceStyles(source: Value): (r: SourceStyle)
    ensures r.caption == source
    ensures source !in KnownSources ==> r.bg == "bg-gray-500"
  {
    if source == Str("Instagram") then SourceStyle("bg-blue-500", Str("Instagram"))
    else if source == Str("Facebook") then SourceStyle("bg-blue-600", Str("Facebook"))
    else if source == Str("Email") then SourceStyle("bg-purple-500", Str("Email"))
    else if source == Str("Import") then SourceStyle("bg-gray-500", Str("Import"))
    else if source == Str("Manual") then SourceStyle("bg-gray-600", Str("Manual"))
    else SourceStyle("bg-gray-500", source)
  }

  /** `getInitials(contact.name)`: only a string has `split`; on any other name the
      call throws. */
  function NameInitials(name: Value): (r: Result<string>)
    ensures r.Ok? <==> name.Str?
    ensures r.Ok? ==> |r.value| <= 2 && forall i :: 0 <= i < |r.value| ==> r.value[i] in name.s && r.value[i] != ' '
  {
    if name.Str? then
      InitialsFromName(name.s);
      Ok(Initials(name.s))
    else Err(TypeErrorMessage)
  }
}
