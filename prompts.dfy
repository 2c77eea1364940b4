/**
 * The two prompt templates of services/geminiService.ts. Each is an introduction,
 * the entity name in double quotes (inserted as typed, without escaping),
 * instructions, an example JSON object listing the schema keys, and closing
 * rules; the text is reproduced character for character.
 */
module Prompts {
  import opened Wrappers
  import opened JsString

  /** One key of an example JSON object and the example value shown for it. */
  datatype SchemaField = SchemaField(key: string, example: string)

  /** `s` between double quotes. */
  function Quoted(s: string): string {
    "\"" + s + "\""
  }

  /** The lines `      "key": example,` of an example object; the last line has no comma. */
  function RenderFields(fields: seq<SchemaField>): string {
    if fields == [] then ""
    else
      "      " + Quoted(fields[0].key) + ": " + fields[0].example
      + (if |fields| == 1 then "" else ",") + "\n" + RenderFields(fields[1..])
  }

  /** The example object, indented as in the template. */
  function RenderSchema(fields: seq<SchemaField>): string {
    "    {\n" + RenderFields(fields) + "    }\n"
  }

  /** The text that follows the quoted name. */
  function Body(instructions: string, schema: seq<SchemaField>, rules: string): string {
    instructions + RenderSchema(schema) + rules
  }

  const SeriesIntro: string :=
    "\n    Eres un experto en series de televisión. "
      + "Encuentra información detallada y actualizada "
      + "para la serie: "

  const SeriesInstructions: string :=
    ".\n"
    + "    Toda la información de texto en la respuesta "
      + "JSON debe estar en español de Latinoamérica.\n"
    + "    Proporciona la respuesta como un único objeto "
      + "JSON válido. No incluyas ningún texto antes "
      + "o después del objeto JSON. No uses comillas "
      + "invertidas de markdown como ```json.\n"
    + "    El objeto JSON debe tener la siguiente estructura:\n"

  const SeriesSchema: seq<SchemaField> := [
    SchemaField("title_en", "\"Original English Title\""),
    SchemaField("title_es", "\"Título en español de Latinoamérica\""),
    SchemaField("title_mx", "\"Título con el que se conoció la serie específicamente "
      + "en México. DEVUELVE NULL si no se encuentra "
      + "un título específico para México o si es idéntico "
      + "al 'title_es'.\""),
    SchemaField("description", "\"Un resumen breve y atractivo de la trama de la serie y de qué trata.\""),
    SchemaField("seasons",
      "[\n"
      + "        { \"season\": 1, \"episodes\": 10, \"air_date\": \"YYYY-MM-DD\" },\n"
      + "        { \"season\": 2, \"episodes\": 12, \"air_date\": \"YYYY-MM-DD\" }\n"
      + "      ]"),
    SchemaField("original_air_date", "\"YYYY-MM-DD\""),
    SchemaField("original_platform", "\"Nombre de la plataforma/canal\""),
    SchemaField("current_platform", "\"Nombre de la plataforma/canal actual, o si "
      + "se está emitiendo actualmente, indica 'En emisión "
      + "en [Canal] los [Días] a las [Hora]'\""),
    SchemaField("is_airing", "true"),
    SchemaField("poster_url", "\"URL pública y directa al póster de la serie. "
      + "La URL DEBE terminar en .jpg, .png, o .webp. "
      + "Si no encuentras una URL que cumpla este requisito, "
      + "devuelve null.\""),
    SchemaField("imdb_rating", "\"Calificación de IMDB como cadena de texto, ej., '8.7/10'\""),
    SchemaField("cast",
      "[\n"
      + "        { \"name\": \"Nombre del Actor\", \"character\": "
        + "\"Nombre del Personaje\" },\n"
      + "        { \"name\": \"Otro Actor\", \"character\": \"Otro Personaje\" }\n"
      + "      ]"),
    SchemaField("similar_series",
      "[\n"
      + "        { \"title\": \"Nombre de Serie Similar\", "
        + "\"reason\": \"Breve explicación de por qué le gustaría "
        + "al espectador.\" },\n"
      + "        { \"title\": \"Otra Serie Similar\", \"reason\": "
        + "\"Otra breve explicación.\" }\n"
      + "      ]")
  ]

  const SeriesRules: string :=
    "    Si alguna información no está disponible, "
      + "usa null como valor para esa clave. Para 'is_airing', "
      + "usa un booleano (true o false). Para 'seasons', "
      + "'cast' y 'similar_series', si no se encuentra "
      + "información, devuelve un array vacío []. Para "
      + "cada temporada, incluye la fecha de estreno "
      + "de esa temporada ('air_date').\n"
    + "  "

  const ActorIntro: string :=
    "\n    Busca información sobre el actor/actriz: "

  const ActorInstructions: string :=
    ".\n"
    + "    Proporciona la respuesta como un único objeto "
      + "JSON válido, sin texto adicional ni markdown.\n"
    + "    El objeto debe tener esta estructura:\n"

  const ActorSchema: seq<SchemaField> := [
    SchemaField("photo_url", "\"URL pública y directa a una foto del actor/actriz. "
      + "La URL DEBE terminar en .jpg, .png, o .webp. "
      + "Si no encuentras una URL que cumpla este requisito, "
      + "devuelve null.\""),
    SchemaField("other_series", "[\"Nombre de otra serie notable\", \"Otra serie importante\"]")
  ]

  const ActorRules: string :=
    "    Si no encuentras información, usa null para "
      + "'photo_url' y un array vacío [] para 'other_series'.\n"
    + "  "

  /** The prompt of `fetchSeriesInfo` for `seriesName`. */
  function SeriesPrompt(seriesName: string): string
  {
    SeriesIntro + Quoted(seriesName) + Body(SeriesInstructions, SeriesSchema, SeriesRules)
  }

  /** The series prompt contains the name verbatim, in double quotes. */
  lemma SeriesPromptQuotesName(seriesName: string)
    ensures IsSubstring(Quoted(seriesName), SeriesPrompt(seriesName))
  {
    PrefixedSubstring(SeriesIntro, Quoted(seriesName), Body(SeriesInstructions, SeriesSchema, SeriesRules));
  }

  /** The prompt of `fetchActorInfo` for `actorName`. */
  function ActorPrompt(actorName: string): string
  {
    ActorIntro + Quoted(actorName) + Body(ActorInstructions, ActorSchema, ActorRules)
  }

  /** The actor prompt contains the name verbatim, in double quotes. */
  lemma ActorPromptQuotesName(actorName: string)
    ensures IsSubstring(Quoted(actorName), ActorPrompt(actorName))
  {
    PrefixedSubstring(ActorIntro, Quoted(actorName), Body(ActorInstructions, ActorSchema, ActorRules));
  }

  /** Each schema key, in double quotes, occurs in the rendered fields. */
  lemma {:induction false} RenderFieldsListsKeys(fields: seq<SchemaField>, n: nat)
    requires n < |fields|
    ensures IsSubstring(Quoted(fields[n].key), RenderFields(fields))
  {
    var rest := RenderFields(fields[1..]);
    var line := "      " + Quoted(fields[0].key) + ": " + fields[0].example
                + (if |fields| == 1 then "" else ",") + "\n";
    assert RenderFields(fields) == line + rest;
    if n == 0 {
      assert Quoted(fields[0].key) <= line[6..];
      assert line[6..] <= RenderFields(fields)[6..];
    } else {
      RenderFieldsListsKeys(fields[1..], n - 1);
      var i :| 0 <= i <= |rest| && Quoted(fields[n].key) <= rest[i..];
      assert rest[i..] == RenderFields(fields)[|line| + i..];
    }
  }

  /** The `SeriesInfo` keys of types.ts, in declaration order. */
  const SeriesInfoKeys: seq<string> := [
    "title_en", "title_es", "title_mx", "description", "seasons", "original_air_date",
    "original_platform", "current_platform", "is_airing", "poster_url", "imdb_rating",
    "cast", "similar_series"
  ]

  /** The `ActorInfo` keys of types.ts, in declaration order. */
  const ActorInfoKeys: seq<string> := ["photo_url", "other_series"]

  /** Every `SeriesInfo` key, in double quotes, occurs in every series prompt. */
  lemma SeriesPromptListsSeriesInfoKeys(seriesName: string)
    ensures forall key :: key in SeriesInfoKeys ==> IsSubstring(Quoted(key), SeriesPrompt(seriesName))
  {
    forall key | key in SeriesInfoKeys
      ensures IsSubstring(Quoted(key), SeriesPrompt(seriesName))
    {
      var n :| 0 <= n < |SeriesInfoKeys| && SeriesInfoKeys[n] == key;
      assert SeriesSchema[n].key == key;
      RenderFieldsListsKeys(SeriesSchema, n);
      BodyListsKeys(SeriesIntro, Quoted(seriesName), SeriesInstructions, SeriesSchema, SeriesRules, n);
    }
  }

  /** Every `ActorInfo` key, in double quotes, occurs in every actor prompt. */
  lemma ActorPromptListsActorInfoKeys(actorName: string)
    ensures forall key :: key in ActorInfoKeys ==> IsSubstring(Quoted(key), ActorPrompt(actorName))
  {
    forall key | key in ActorInfoKeys
      ensures IsSubstring(Quoted(key), ActorPrompt(actorName))
    {
      var n :| 0 <= n < |ActorInfoKeys| && ActorInfoKeys[n] == key;
      assert ActorSchema[n].key == key;
      RenderFieldsListsKeys(ActorSchema, n);
      BodyListsKeys(ActorIntro, Quoted(actorName), ActorInstructions, ActorSchema, ActorRules, n);
    }
  }

  /** A key listed by the rendered fields occurs in the whole prompt. */
  lemma BodyListsKeys(intro: string, name: string, instructions: string, schema: seq<SchemaField>,
                      rules: string, n: nat)
    requires n < |schema| && IsSubstring(Quoted(schema[n].key), RenderFields(schema))
    ensures IsSubstring(Quoted(schema[n].key), intro + name + Body(instructions, schema, rules))
  {
    var fs := RenderFields(schema);
    var before := intro + name + instructions + "    {\n";
    var after := "    }\n" + rules;
    calc {
      intro + name + Body(instructions, schema, rules);
      intro + name + (instructions + ("    {\n" + fs + "    }\n") + rules);
      { ConcatAssoc(intro + name, instructions, "    {\n", fs, "    }\n", rules); }
      before + fs + after;
    }
    InfixSubstring(Quoted(schema[n].key), before, fs, after);
  }

  /**
   * The name between `intro` plus a double quote and a double quote plus `body`,
   * or None when `prompt` does not have that shape.
   */
  function QuotedNameBetween(prompt: string, intro: string, body: string): Option<string> {
    var head, tail := intro + "\"", "\"" + body;
    if |head| + |tail| <= |prompt| && prompt[..|head|] == head && prompt[|prompt| - |tail|..] == tail
    then Some(prompt[|head|..|prompt| - |tail|])
    else None
  }

  /** The name a series prompt was built from. */
  function SeriesNameOf(prompt: string): Option<string> {
    QuotedNameBetween(prompt, SeriesIntro, Body(SeriesInstructions, SeriesSchema, SeriesRules))
  }

  /** The name an actor prompt was built from. */
  function ActorNameOf(prompt: string): Option<string> {
    QuotedNameBetween(prompt, ActorIntro, Body(ActorInstructions, ActorSchema, ActorRules))
  }

  /** The name inserted between a quoted intro and a quoted body can be read back. */
  lemma QuotedNameRoundTrip(intro: string, name: string, body: string)
    ensures QuotedNameBetween(intro + Quoted(name) + body, intro, body) == Some(name)
  {
    var prompt := intro + Quoted(name) + body;
    var head, tail := intro + "\"", "\"" + body;
    assert prompt == head + name + tail;
    assert prompt[..|head|] == head;
    assert prompt[|prompt| - |tail|..] == tail;
    assert prompt[|head|..|prompt| - |tail|] == name;
  }

  /** A series prompt gives back the series name it was built from, unchanged. */
  lemma SeriesPromptRoundTrip(seriesName: string)
    ensures SeriesNameOf(SeriesPrompt(seriesName)) == Some(seriesName)
  {
    QuotedNameRoundTrip(SeriesIntro, seriesName, Body(SeriesInstructions, SeriesSchema, SeriesRules));
  }

  /** An actor prompt gives back the actor name it was built from, unchanged. */
  lemma ActorPromptRoundTrip(actorName: string)
    ensures ActorNameOf(ActorPrompt(actorName)) == Some(actorName)
  {
    QuotedNameRoundTrip(ActorIntro, actorName, Body(ActorInstructions, ActorSchema, ActorRules));
  }

  /** Different series names give different prompts. */
  lemma SeriesPromptInjective(a: string, b: string)
    ensures SeriesPrompt(a) == SeriesPrompt(b) ==> a == b
  {
    SeriesPromptRoundTrip(a);
    SeriesPromptRoundTrip(b);
  }

  /** Different actor names give different prompts. */
  lemma ActorPromptInjective(a: string, b: string)
    ensures ActorPrompt(a) == ActorPrompt(b) ==> a == b
  {
    ActorPromptRoundTrip(a);
    ActorPromptRoundTrip(b);
  }

  /** Regrouping the concatenation of a prompt around its rendered fields. */
  lemma ConcatAssoc(a: string, b: string, c: string, d: string, e: string, f: string)
    ensures a + (b + (c + d + e) + f) == (a + b + c) + d + (e + f)
  {
  }

  /** Whatever occurs in `m` occurs in `a + m + c`. */
  lemma InfixSubstring(sub: string, a: string, m: string, c: string)
    requires IsSubstring(sub, m)
    ensures IsSubstring(sub, a + m + c)
  {
    var i :| 0 <= i <= |m| && sub <= m[i..];
    assert m[i..] <= (a + m + c)[|a| + i..];
  }

  /** `b` occurs in `a + b + c`. */
  lemma PrefixedSubstring(a: string, b: string, c: string)
    ensures IsSubstring(b, a + b + c)
  {
    assert b <= (a + b + c)[|a|..];
  }
}
