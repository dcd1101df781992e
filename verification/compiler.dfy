/** The C# `compiler`: tokenizer, parser, transformer and code generator in
    sequence; the first error of any stage is the result. */
module Compiler {
  import opened Wrappers
  import opened Chars
  import opened Syntax
  import Tokenizer
  import Parser
  import Transformer
  import CodeGenerator

  function Compile(input: string): Result<string, Error>
  {
    var tokens :- Tokenizer.Tokenize(input);
    var ast :- Parser.Parse(tokens);
    Ok(CodeGenerator.Generate(Transformer.Transform(ast)))
  }

  /** Text with no tokens compiles to the empty output. */
  lemma {:induction false} CompileBlank(input: string)
    requires All(input, IsWhitespace)
    ensures Compile(input) == Ok("")
  {
    TokenizeBlank(input);
  }

  lemma {:induction false} TokenizeBlank(input: string)
    requires All(input, IsWhitespace)
    ensures Tokenizer.Tokenize(input) == Ok([])
    decreases |input|
  {
    if |input| > 0 {
      TokenizeBlank(input[1..]);
    }
  }
}
