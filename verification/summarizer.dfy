/**
 * `ScrapedDataAI.Summarize` of ai.go: format a company record as prompt text,
 * send it to the chat-completion endpoint, and keep the first choice as the
 * receiver's summary.
 *
 * The endpoint is a function from the request sent to the reply received.
 */
module Summarizer {
  import opened Wrappers
  import opened Fetcher
  import opened GoStrings

  datatype Message = Message(role: string, content: string)

  datatype OpenAIRequest = OpenAIRequest(model: string, messages: seq<Message>)

  datatype Choice = Choice(index: int, message: Message, finishReason: string)

  datatype ChatCompletionResponse = ChatCompletionResponse(id: string, model: string, choices: seq<Choice>)

  /** What the endpoint gives back: a failure of `client.Do`, an undecodable body, or a decoded response. */
  datatype ChatReply = SendFailed(cause: string) | DecodeFailed(cause: string) | Decoded(response: ChatCompletionResponse)

  const Instruction := "I want you to summarize the what information is on following webpage in text format."

  const NoChoices := Error("no choices returned from OpenAI")

  /** `fmt.Sprintf("Company Description: %s\n", ...)`. */
  function DescriptionLine(info: CompanyInfo): string {
    "Company Description: " + info.fullDescription + "\n"
  }

  /** `fmt.Sprintf("Product Name: %s\nDescription: %s\n", ...)`. */
  function ProductLine(p: ProductDetails): string {
    "Product Name: " + p.productName + "\nDescription: " + p.productDescription + "\n"
  }

  /** `fmt.Sprintf("Number of Employees: %s\n", ...)`. */
  function EmployeeLine(info: CompanyInfo): string {
    "Number of Employees: " + info.employeeCount + "\n"
  }

  /** The concatenation of `f(x)` over `xs`, in order. */
  function ConcatMap<T>(f: T -> string, xs: seq<T>): string {
    if xs == [] then "" else f(xs[0]) + ConcatMap(f, xs[1..])
  }

  /** The product lines, in order. */
  function ProductLines(ps: seq<ProductDetails>): string {
    ConcatMap(ProductLine, ps)
  }

  /** The prompt text: the description line, one entry per product, the employee line. */
  function FormatCompanyInfo(info: CompanyInfo): string {
    DescriptionLine(info) + ProductLines(info.products) + EmployeeLine(info)
  }

  /** Appending an item appends its entry: the order of a loop that accumulates with `+=`. */
  lemma {:induction false} ConcatMapSnoc<T>(f: T -> string, xs: seq<T>, x: T)
    ensures ConcatMap(f, xs + [x]) == ConcatMap(f, xs) + f(x)
  {
    if xs != [] {
      assert (xs + [x])[1..] == xs[1..] + [x];
      ConcatMapSnoc(f, xs[1..], x);
    }
  }

  /** The entries before item `i`, its own entry, and the entries after it. */
  lemma {:induction false} ConcatMapSplit<T>(f: T -> string, xs: seq<T>, i: nat)
    requires i < |xs|
    ensures ConcatMap(f, xs) == ConcatMap(f, xs[..i]) + f(xs[i]) + ConcatMap(f, xs[i + 1..])
  {
    if i > 0 {
      ConcatMapSplit(f, xs[1..], i - 1);
      assert xs[1..][..i - 1] == xs[1..i];
      assert xs[..i] == [xs[0]] + xs[1..i];
      assert xs[1..][i - 1] == xs[i] && xs[1..][i..] == xs[i + 1..];
    } else {
      assert xs[..0] == [];
      assert xs[1..] == xs[i + 1..];
    }
  }

  /** Every product's entry occurs in the prompt text. */
  lemma ProductListed(info: CompanyInfo, i: nat)
    requires i < |info.products|
    ensures Contains(FormatCompanyInfo(info), ProductLine(info.products[i]))
  {
    var ps := info.products;
    ConcatMapSplit(ProductLine, ps, i);
    var before := DescriptionLine(info) + ProductLines(ps[..i]);
    var line := ProductLine(ps[i]);
    var after := ProductLines(ps[i + 1..]) + EmployeeLine(info);
    assert FormatCompanyInfo(info) == before + line + after;
    assert line <= (before + line + after)[|before|..];
  }

  /** With no products the text is the description line followed by the employee line. */
  lemma FormatWithoutProducts(info: CompanyInfo)
    requires info.products == []
    ensures FormatCompanyInfo(info)
      == "Company Description: " + info.fullDescription + "\nNumber of Employees: " + info.employeeCount + "\n"
  {
  }

  /** The `formattedText +=` loop of `Summarize`. */
  method FormatText(info: CompanyInfo) returns (formattedText: string)
    ensures formattedText == FormatCompanyInfo(info)
  {
    formattedText := "";
    formattedText := formattedText + DescriptionLine(info);
    var ps := info.products;
    for i := 0 to |ps|
      invariant formattedText == DescriptionLine(info) + ProductLines(ps[..i])
    {
      var product := info.products[i];
      ghost var prev := ProductLines(ps[..i]);
      assert ps[..i + 1] == ps[..i] + [product];
      ConcatMapSnoc(ProductLine, ps[..i], product);
      assert ProductLines(ps[..i + 1]) == prev + ProductLine(product);
      formattedText := formattedText + ProductLine(product);
    }
    assert ps[..|ps|] == ps;
    formattedText := formattedText + EmployeeLine(info);
  }

  /** The request body: model "gpt-4o", the fixed instruction, then the text, both from the user. */
  function ChatRequest(text: string): (r: OpenAIRequest)
    ensures r.model == "gpt-4o"
    ensures |r.messages| == 2
    ensures forall m :: m in r.messages ==> m.role == "user"
    ensures r.messages[0].content == Instruction && r.messages[1].content == text
  {
    OpenAIRequest("gpt-4o", [Message("user", Instruction), Message("user", text)])
  }

  /** A result type whose only content is a summary string. */
  class ScrapedDataAI {
    var summary: string

    constructor ()
      ensures summary == ""
    {
      summary := "";
    }

    /**
     * `Summarize(info)`: on success the first choice's content becomes the
     * summary and is returned; on every error the prior summary is returned
     * and kept.
     */
    method Summarize(info: CompanyInfo, chat: OpenAIRequest -> ChatReply)
      returns (result: string, err: Option<Error>)
      modifies this
      ensures var reply := chat(ChatRequest(FormatCompanyInfo(info)));
        if reply.Decoded? && reply.response.choices != [] then
          && summary == reply.response.choices[0].message.content
          && result == summary && err == None
        else
          && summary == old(summary) && result == old(summary)
          && err == Some(match reply
                         case SendFailed(cause) => Error(cause)
                         case DecodeFailed(cause) => Error(cause)
                         case Decoded(_) => NoChoices)
    {
      var formattedText := FormatText(info);
      var openAIRequest := ChatRequest(formattedText);
      match chat(openAIRequest)
      case SendFailed(cause) =>
        return summary, Some(Error(cause));
      case DecodeFailed(cause) =>
        return summary, Some(Error(cause));
      case Decoded(completionResponse) =>
        if |completionResponse.choices| == 0 {
          return summary, Some(NoChoices);
        }
        summary := completionResponse.choices[0].message.content;
        return summary, None;
    }
  }
}
