/** The C# `decompiler`: detokenizer, deparser, detransformer and decode
    generator in sequence; the first error of any stage is the result. */
module Decompiler {
  import opened Wrappers
  import opened Syntax
  import Detokenizer
  import Deparser
  import Detransformer
  import DecodeGenerator

  function Decompile(input: string): Result<string, Error>
  {
    var tokens :- Detokenizer.Detokenize(input);
    var ast :- Deparser.Deparse(tokens);
    Ok(DecodeGenerator.DecodeGenerate(Detransformer.Detransform(ast)))
  }
}
