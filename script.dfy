/** The interview instruction both handlers give the model. The two copies
    differ only in their indentation. Requests carry the instruction by name;
    `Wording` is its exact text. */
module Script {
  import opened Text
  import opened Completion

  /** The Groq handler's copy and the webhook's copy. */
  datatype Instruction = GroqInterview | GeminiInterview

  /** The lines before the marker line: the four fields to collect, one
      question at a time, and the demand for the JSON block. */
  function Opening(i: Instruction): string {
    match i
    case GroqInterview =>
      "Você é um assistente de vendas da ADV Digital. \n"
      + "            Seu objetivo é coletar dados para criar um site jurídico em 48h.\n"
      + "            Colete os seguintes dados:\n"
      + "            1. Nome do Advogado\n"
      + "            2. Nome do Escritório\n"
      + "            3. Especialidades\n"
      + "            4. Principal Diferencial\n"
      + "        \n"
      + "            Seja formal, mas prestativo. Pergunte uma coisa por vez.\n"
      + "            \n"
      + "            IMPORTANTE:\n"
      + "            Quando o usuário fornecer todos os 4 pontos acima, você DEVE retornar APENAS O SEGUINTE JSON no final da sua resposta, sem markdown (backticks):\n"
      + "            \n"
      + "            "
    case GeminiInterview =>
      "Você é um assistente de vendas da ADV Digital. \n"
      + "    Seu objetivo é coletar dados para criar um site jurídico em 48h.\n"
      + "    Colete os seguintes dados:\n"
      + "    1. Nome do Advogado\n"
      + "    2. Nome do Escritório\n"
      + "    3. Especialidades\n"
      + "    4. Principal Diferencial\n"
      + "\n"
      + "    Seja formal, mas prestativo. Pergunte uma coisa por vez.\n"
      + "    \n"
      + "    IMPORTANTE:\n"
      + "    Quando o usuário fornecer todos os 4 pontos acima, você DEVE retornar APENAS O SEGUINTE JSON no final da sua resposta, sem markdown (backticks):\n"
      + "    \n"
      + "    "
  }

  /** The rest of the marker line and the JSON template after it. */
  function Template(i: Instruction): string {
    match i
    case GroqInterview =>
      "\n"
      + "            {\n"
      + "                \"nome_advogado\": \"Nome...\",\n"
      + "                \"nome_escritorio\": \"Escritório...\",\n"
      + "                \"especialidades\": \"Áreas...\",\n"
      + "                \"diferencial\": \"Texto do diferencial...\"\n"
      + "            }\n"
      + "            "
    case GeminiInterview =>
      "\n"
      + "    {\n"
      + "        \"nome_advogado\": \"Nome...\",\n"
      + "        \"nome_escritorio\": \"Escritório...\",\n"
      + "        \"especialidades\": \"Áreas...\",\n"
      + "        \"diferencial\": \"Texto do diferencial...\"\n"
      + "    }\n"
      + "    "
  }

  /** The full text of the instruction. */
  function Wording(i: Instruction): string {
    Opening(i) + Sentinel + Template(i)
  }

  /** The instruction asks for the very marker the extractor looks for: a
      reply that repeats it would trigger the extraction. */
  lemma InstructionNamesMarker(i: Instruction)
    ensures Contains(Wording(i), Sentinel)
    ensures Triggered(Wording(i))
  {
    OccursBetween(Opening(i), Sentinel, Template(i));
  }
}
