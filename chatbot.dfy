/** The hybrid chatbot: a text classifier picks an intent; a confident intent
    is answered from a fixed table, a doubtful one is handed to an external
    text generator. The vectorizer, the classifier and the generator are
    opaque inputs. */
module Chatbot {
  import opened Wrappers

  /** Below this maximum probability the classifier's choice is not trusted. */
  const Threshold: real := 0.5

  /** The intent string that stands for "ask the generator". */
  const FallbackIntent: string := "gemini_fallback"

  /** The reply given whenever the generator fails. */
  const Apology: string :=
    "I'm facing a technical issue, but I can help with electricity bills or energy-saving tips! \U{26A1}"

  /** The canned reply for each intent label. */
  const Responses: map<string, string> := map[
    "high_bill" :=
      "Your electricity bill seems high. Try monitoring AC usage, switching to LED bulbs, and reducing standby power. \U{26A1}",
    "low_bill" :=
      "Great job! Your low electricity bill shows efficient usage. Keep it up! \U{1F331}",
    "energy_tips" :=
      "Here are some tips: unplug chargers, use LED bulbs, avoid peak hours, clean appliance filters, and turn off unused devices. \U{1F4A1}",
    "ac_tips" :=
      "To save AC electricity: set temperature to 24\U{B0}C, clean filters monthly, use eco mode, avoid frequent on/off cycles, and close doors/windows while cooling. \U{2744}\U{FE0F}",
    "greeting" :=
      "Hello! I'm your Energy Advisor. How can I help you today? \U{1F60A}",
    "thanks" :=
      "You're welcome! Happy to help anytime. \U{1F31F}",
    "general_faq" :=
      "That's a general electricity-related question! \U{26A1}\n"
      + "- Power Saving Mode reduces appliance energy consumption by optimizing performance.\n"
      + "- A kWh is the standard unit for measuring electricity usage.\n"
      + "- High-watt appliances consume more power.\n"
      + "Feel free to ask me anything related to electricity, appliances, or energy usage! \U{1F4D8}",
    "unknown" :=
      "I'm not sure about that, but I can help with electricity bills, AC usage, or energy-saving tips! \U{1F50E}"
  ]

  /** The keys of the reply table, listed once more as a sequence so that
      their number and their distinctness can be stated. */
  const Intents: seq<string> :=
    ["high_bill", "low_bill", "energy_tips", "ac_tips",
     "greeting", "thanks", "general_faq", "unknown"]

  /** No intent is listed twice. */
  lemma IntentsDistinct()
    ensures forall i, j :: 0 <= i < j < |Intents| ==> Intents[i] != Intents[j]
  {
    forall i, j | 0 <= i < j < |Intents| ensures Intents[i] != Intents[j] {
      assert Intents[i][0] != Intents[j][0] || Intents[i][1] != Intents[j][1]
        || |Intents[i]| != |Intents[j]|;
    }
  }

  /** The table's keys are exactly the eight intents, and not the fallback
      sentinel. */
  lemma ResponseKeys()
    ensures forall k :: k in Responses <==> k in Intents
    ensures |Responses| == 8
    ensures FallbackIntent !in Responses
  {
    KeysAreIntents();
    IntentsDistinct();
    DistinctCard(Intents, Responses.Keys);
    SentinelNotAnIntent();
  }

  lemma SentinelNotAnIntent()
    ensures FallbackIntent !in Intents
  {
  }

  lemma KeysAreIntents()
    ensures forall k :: k in Responses <==> k in Intents
  {
    forall k ensures k in Responses <==> k in Intents {
      if k in Responses { NamedKeyIsIntent(k); }
      if k in Intents { IntentIsNamedKey(k); }
    }
  }

  lemma NamedKeyIsIntent(k: string)
    requires k in Responses
    ensures k in Intents
  {
  }

  lemma IntentIsNamedKey(k: string)
    requires k in Intents
    ensures k in Responses
  {
  }

  /** A set holding exactly the elements of a sequence without repetitions
      has as many elements as the sequence. */
  lemma {:induction false} DistinctCard(s: seq<string>, keys: set<string>)
    requires forall i, j :: 0 <= i < j < |s| ==> s[i] != s[j]
    requires forall k :: k in keys <==> k in s
    ensures |keys| == |s|
  {
    if s != [] {
      var last := s[|s| - 1];
      var t := s[..|s| - 1];
      forall k ensures k in keys - {last} <==> k in t {
        if k in t {
          var i :| 0 <= i < |t| && t[i] == k;
          assert s[i] == k;
        }
        if k in keys - {last} {
          var i :| 0 <= i < |s| && s[i] == k;
          assert i < |s| - 1;
          assert t[i] == k;
        }
      }
      DistinctCard(t, keys - {last});
    }
  }

  // ---------------------------------------------------------------------
  // Classifier output and intent prediction
  // ---------------------------------------------------------------------

  /** `predict_proba(...)[0]` aligned with `classes_`. */
  datatype Classification = Classification(classes: seq<string>, probs: seq<real>)

  /** What a trained classifier always returns: one probability per class,
      and at least one class. */
  predicate WellFormed(c: Classification)
  {
    |c.classes| == |c.probs| && |c.probs| > 0
  }

  /** Python's `max` over the probabilities. */
  function MaxOf(s: seq<real>): (m: real)
    requires |s| > 0
    ensures m in s
    ensures forall i :: 0 <= i < |s| ==> s[i] <= m
  {
    if |s| == 1 then s[0]
    else
      var m := MaxOf(s[..|s| - 1]);
      if s[|s| - 1] > m then s[|s| - 1] else m
  }

  /** NumPy's `argmax`: the first index holding the largest value. */
  function ArgMax(s: seq<real>): (k: nat)
    requires |s| > 0
    ensures k < |s|
    ensures forall i :: 0 <= i < |s| ==> s[i] <= s[k]
    ensures forall i :: 0 <= i < k ==> s[i] < s[k]
  {
    if |s| == 1 then 0
    else
      var k := ArgMax(s[..|s| - 1]);
      if s[|s| - 1] > s[k] then |s| - 1 else k
  }

  /** The confidence compared with the threshold is the probability of the
      class that is chosen. */
  lemma MaxOfIsAtArgMax(s: seq<real>)
    requires |s| > 0
    ensures MaxOf(s) == s[ArgMax(s)]
  {
    var m := MaxOf(s);
    var i :| 0 <= i < |s| && s[i] == m;
  }

  /** When the classifier's outputs are probabilities, so is the confidence. */
  lemma ConfidenceIsProbability(s: seq<real>)
    requires |s| > 0
    requires forall i :: 0 <= i < |s| ==> 0.0 <= s[i] <= 1.0
    ensures 0.0 <= MaxOf(s) <= 1.0
  {
  }

  /** `predict_intent`: the sentinel when the top probability is below the
      threshold, otherwise the label of the first most probable class. */
  function PredictIntent(c: Classification): (intent: string)
    requires WellFormed(c)
    ensures MaxOf(c.probs) < Threshold ==> intent == FallbackIntent
    ensures Threshold <= MaxOf(c.probs) ==> intent in c.classes
  {
    var maxProb := MaxOf(c.probs);
    var predictedIntent := c.classes[ArgMax(c.probs)];
    if maxProb < Threshold then FallbackIntent else predictedIntent
  }

  /** A confident prediction is the label of the first index holding the
      maximum; any index with that property gives the same label. */
  lemma ConfidentIntentIsFirstMax(c: Classification, k: nat)
    requires WellFormed(c) && k < |c.probs|
    requires forall i :: 0 <= i < |c.probs| ==> c.probs[i] <= c.probs[k]
    requires forall i :: 0 <= i < k ==> c.probs[i] < c.probs[k]
    requires Threshold <= c.probs[k]
    ensures PredictIntent(c) == c.classes[k]
  {
    var a := ArgMax(c.probs);
    assert !(a < k) && !(k < a);
    MaxOfIsAtArgMax(c.probs);
  }

  /** The boundary: a top probability of exactly 0.50 is confident. */
  lemma ThresholdIsInclusive(c: Classification)
    requires WellFormed(c) && MaxOf(c.probs) == 0.5
    ensures PredictIntent(c) == c.classes[ArgMax(c.probs)]
  {
  }

  // ---------------------------------------------------------------------
  // The generator fallback and the reply
  // ---------------------------------------------------------------------

  /** Any failure of the generator (network, timeout, malformed reply). */
  datatype GenerateError = GenerateError(reason: string)

  /** The error `responses[intent]` raises for a label missing from the
      table (Python's KeyError). */
  datatype ChatError = KeyError(key: string)

  /** `call_gemini`: the generator's text for the prompt as it is, or the
      apology when the generator fails; it never fails itself. */
  function CallGemini(generate: string -> Result<string, GenerateError>, prompt: string): (reply: string)
    ensures generate(prompt).Ok? ==> reply == generate(prompt).value
    ensures generate(prompt).Err? ==> reply == Apology
  {
    match generate(prompt)
    case Ok(text) => text
    case Err(_) => Apology
  }

  /** The apology is never empty, so a failing generator still yields a
      visible reply. */
  lemma FailedFallbackReplyNonEmpty(generate: string -> Result<string, GenerateError>, prompt: string)
    requires generate(prompt).Err?
    ensures |CallGemini(generate, prompt)| > 0
  {
  }

  /** `chatbot_response`: the classifier (vectorizer and model together)
      decides the intent; the sentinel goes to the generator with the user's
      message, any other label is looked up in the table. */
  function ChatbotResponse(
    message: string,
    classify: string -> Classification,
    generate: string -> Result<string, GenerateError>
  ): (r: Result<string, ChatError>)
    requires WellFormed(classify(message))
    ensures r.Err? <==>
      (var top := classify(message).classes[ArgMax(classify(message).probs)];
       Threshold <= MaxOf(classify(message).probs)
       && top != FallbackIntent && top !in Responses)
    ensures r.Err? ==>
      r.error == KeyError(classify(message).classes[ArgMax(classify(message).probs)])
  {
    var intent := PredictIntent(classify(message));
    if intent == FallbackIntent then Ok(CallGemini(generate, message))
    else if intent in Responses then Ok(Responses[intent])
    else Err(KeyError(intent))
  }

  /** Low confidence: the generator is asked with the message unchanged and
      its answer (or the apology) is the reply. */
  lemma LowConfidenceAsksGenerator(
    message: string,
    classify: string -> Classification,
    generate: string -> Result<string, GenerateError>
  )
    requires WellFormed(classify(message))
    requires MaxOf(classify(message).probs) < Threshold
    ensures generate(message).Ok? ==> ChatbotResponse(message, classify, generate) == Ok(generate(message).value)
    ensures generate(message).Err? ==> ChatbotResponse(message, classify, generate) == Ok(Apology)
  {
  }

  /** High confidence on a label of the table: the reply is that label's
      canned text, whatever the generator would have said. */
  lemma ConfidentAnswersFromTable(
    message: string,
    classify: string -> Classification,
    generate: string -> Result<string, GenerateError>
  )
    requires WellFormed(classify(message))
    requires Threshold <= MaxOf(classify(message).probs)
    requires classify(message).classes[ArgMax(classify(message).probs)] in Responses
    ensures ChatbotResponse(message, classify, generate)
      == Ok(Responses[classify(message).classes[ArgMax(classify(message).probs)]])
  {
    ResponseKeys();
  }

  /** When every class of the classifier has a table entry, the reply is
      never an error. */
  lemma CoveredLabelsNeverFail(
    message: string,
    classify: string -> Classification,
    generate: string -> Result<string, GenerateError>
  )
    requires WellFormed(classify(message))
    requires forall i :: 0 <= i < |classify(message).classes| ==> classify(message).classes[i] in Responses
    ensures ChatbotResponse(message, classify, generate).Ok?
  {
  }

  /** The sentinel is compared as a string: a class literally named
      "gemini_fallback" is sent to the generator even when confident. */
  lemma SentinelLabelGoesToGenerator(
    message: string,
    classify: string -> Classification,
    generate: string -> Result<string, GenerateError>
  )
    requires WellFormed(classify(message))
    requires classify(message).classes[ArgMax(classify(message).probs)] == FallbackIntent
    ensures ChatbotResponse(message, classify, generate) == Ok(CallGemini(generate, message))
  {
  }

  /** A confident high-bill message gets the high-bill text exactly. */
  lemma HighBillScenario(
    classify: string -> Classification,
    generate: string -> Result<string, GenerateError>
  )
    requires classify("my bill is very high this month")
      == Classification(["ac_tips", "high_bill", "unknown"], [0.10, 0.82, 0.08])
    ensures ChatbotResponse("my bill is very high this month", classify, generate)
      == Ok(Responses["high_bill"])
  {
    var c := classify("my bill is very high this month");
    ConfidentIntentIsFirstMax(c, 1);
  }

  /** A doubtful message is passed verbatim to the generator, whose reply is
      returned as it is. */
  lemma GibberishScenario(
    classify: string -> Classification,
    generate: string -> Result<string, GenerateError>
  )
    requires classify("asdkjhasd random gibberish")
      == Classification(["greeting", "unknown", "thanks", "ac_tips"], [0.30, 0.25, 0.25, 0.20])
    requires generate("asdkjhasd random gibberish") == Ok("Try reducing AC usage.")
    ensures ChatbotResponse("asdkjhasd random gibberish", classify, generate)
      == Ok("Try reducing AC usage.")
  {
    var c := classify("asdkjhasd random gibberish");
    assert MaxOf(c.probs) < Threshold by {
      assert forall i :: 0 <= i < |c.probs| ==> c.probs[i] < Threshold;
    }
  }
}
